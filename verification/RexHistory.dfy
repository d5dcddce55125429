/** How the share price, the lending and the account histories evolve over runs. */
module RexHistory {
  import opened Basics
  import opened Tables
  import opened Ledger
  import opened Maturity
  import opened RexPool
  import opened Rex
  import opened Staking
  import opened Actions
  import opened RexInvariant
  import opened RexProofs
  import opened ActionProofs
  import opened StakeProofs
  import opened ActionInv
  import opened RexTheorems

  // ---------- one action ----------

  /** The share price does not fall. */
  ghost predicate PriceHolds(p: Option<Pool>, q: Option<Pool>) {
    p.Some? ==> q.Some? && PriceKept(p.value, q.value)
  }

  ghost predicate SomeOpen(orders: map<Name, Order>) {
    exists n :: n in orders && orders[n].isOpen
  }

  /** One action: time and history only grow, the share price does not fall, and nothing is lent
      while an order waits. */
  ghost predicate Evolves(s: State, s1: State) {
    && s.now <= s1.now && s.log <= s1.log
    && PriceHolds(s.pool, s1.pool)
    && (SomeOpen(s.orders) ==>
          (NoNewLending(s.cpuLoans, s1.cpuLoans) && NoNewLending(s.netLoans, s1.netLoans)) || !SomeOpen(s1.orders))
  }

  /** A step that leaves the pool's shares and tokens, the loans and the histories alone. */
  ghost predicate Quiet(s: State, s1: State) {
    && s1.now == s.now && s1.log == s.log && s1.cpuLoans == s.cpuLoans && s1.netLoans == s.netLoans
    && s1.pool.Some? == s.pool.Some?
    && (s.pool.Some? ==> s1.pool.value.lendable == s.pool.value.lendable && s1.pool.value.rex == s.pool.value.rex)
  }

  lemma QuietEvolves(s: State, s1: State)
    requires Quiet(s, s1)
    ensures Evolves(s, s1)
  {
  }

  lemma RunEvolves(s: State, s1: State)
    requires Inv(s, 0) && RexRun(s, s1)
    ensures Evolves(s, s1)
    ensures SomeOpen(s.orders) ==> NoNewLending(s.cpuLoans, s1.cpuLoans) && NoNewLending(s.netLoans, s1.netLoans)
  {
    hide Core, PriceKept, LoansAvailable;
    if SomeOpen(s.orders) {
      var n :| n in s.orders && s.orders[n].isOpen;
      ClockInRange(s);
      OpenOrderBlocksLoans(s, n);
    }
  }

  lemma EvolvesThenQuiet(s: State, s1: State, s2: State)
    requires Evolves(s, s1) && Quiet(s1, s2)
    requires SomeOpen(s.orders) ==> NoNewLending(s.cpuLoans, s1.cpuLoans) && NoNewLending(s.netLoans, s1.netLoans)
    ensures Evolves(s, s2)
  {
  }

  lemma SettleQuiet(s: State, owner: Name, proceeds: int)
    ensures Quiet(s, SettleAccount(s, owner, proceeds).0)
  {
  }

  lemma BandwidthQuiet(s: State, source: Name, receiver: Name, net: int, cpu: int, transfer: bool)
    requires ChangeBandwidth(s, source, receiver, net, cpu, transfer).Ok?
    ensures Quiet(s, ChangeBandwidth(s, source, receiver, net, cpu, transfer).value)
  {
    hide ChangeDelegation, UpdateTotals, NetAgainstRefund, Seconds, Value, Transfer, SameSign;
  }

  /** Buying, then maintenance. */
  lemma PurchaseEvolves(s: State, s1: State, owner: Name, payment: int, slack: int)
    requires Core(s1, slack) && OrdersInv(s1.orders, s1.balances, s1.now) && payment == slack > 0
    requires s1.pool == s.pool && s1.log == s.log && s1.now == s.now && s1.orders == s.orders
    requires s1.cpuLoans == s.cpuLoans && s1.netLoans == s.netLoans
    requires s.pool.Some? ==> PoolOk(s.pool.value)
    requires BuyShares(s1, owner, payment).Ok? && RunRex(BuyShares(s1, owner, payment).value, 2).Ok?
    ensures var s3 := RunRex(BuyShares(s1, owner, payment).value, 2).value;
      && Evolves(s, s3) && Inv(s3, 0)
      && (SomeOpen(s.orders) ==> NoNewLending(s.cpuLoans, s3.cpuLoans) && NoNewLending(s.netLoans, s3.netLoans))
  {
    hide Core, BuyShares, RunRex, OrdersInv, PriceKept, PoolOk;
    BuySharesKeeps(s1, owner, payment, slack);
    var s2 := BuyShares(s1, owner, payment).value;
    BoughtOrders(s1, s2);
    RunRexKeeps(s2, 2);
    var s3 := RunRex(s2, 2).value;
    RunEvolves(s2, s3);
    InvPool'(s2);
    InvPool'(s3);
    if s.pool.Some? {
      PriceTransitive(s.pool.value, s2.pool.value, s3.pool.value);
    }
  }

  lemma BuyRexEvolves(s: State, owner: Name, amount: int, voteOk: bool)
    requires Inv(s, 0) && ExecBuyRex(s, owner, amount, voteOk).Ok?
    ensures Evolves(s, ExecBuyRex(s, owner, amount, voteOk).value)
  {
    hide Core, BuyShares, RunRex, OrdersInv, SettleAccount, Evolves, PoolOk;
    FromFundKeeps(s, owner, amount, 0);
    var s1 := FromFund(s, owner, amount).value;
    if s.pool.Some? {
      InvPool'(s);
    }
    PurchaseEvolves(s, s1, owner, amount, amount);
    var s3 := RunRex(BuyShares(s1, owner, amount).value, 2).value;
    SettleQuiet(s3, owner, 0);
    EvolvesThenQuiet(s, s3, SettleAccount(s3, owner, 0).0);
  }

  lemma UnstakeEvolves(s: State, owner: Name, receiver: Name, net: int, cpu: int, voteOk: bool)
    requires Inv(s, 0) && ExecUnstakeToRex(s, owner, receiver, net, cpu, voteOk).Ok?
    ensures Evolves(s, ExecUnstakeToRex(s, owner, receiver, net, cpu, voteOk).value)
  {
    hide Core, BuyShares, RunRex, OrdersInv, SettleAccount, Evolves, PoolOk, UnstakeForRex;
    UnstakeForRexKeeps(s, owner, receiver, net, cpu);
    var s1 := UnstakeForRex(s, owner, receiver, net, cpu).value;
    if s.pool.Some? {
      InvPool'(s);
    }
    PurchaseEvolves(s, s1, owner, net + cpu, net + cpu);
    var s3 := RunRex(BuyShares(s1, owner, net + cpu).value, 2).value;
    SettleQuiet(s3, owner, 0);
    EvolvesThenQuiet(s, s3, SettleAccount(s3, owner, 0).0);
  }

  lemma FillEvolves(s: State, owner: Name, rex: int)
    requires Inv(s, 0) && owner in s.balances && 0 < rex <= s.balances[owner].matured
    requires s.pool.Some? && s.pool.value.namebidProceeds == 0
    requires FillOrder(s, owner, rex).Ok? && FillOrder(s, owner, rex).value.Filled?
    ensures var s1 := FillOrder(s, owner, rex).value.s;
      && s1.now == s.now && s.log <= s1.log && s1.cpuLoans == s.cpuLoans && s1.netLoans == s.netLoans
      && PoolRuns(s.pool, s1.pool) && PoolOk(s1.pool.value)
  {
    hide Core, FillOrder, PriceKept, PoolOk;
    FillKeeps(s, owner, rex, 0);
    var f := FillOrder(s, owner, rex).value;
    InvPool(f.s, f.proceeds);
  }

  lemma SellEvolves(s: State, s1: State, owner: Name, rex: int, voteOk: bool)
    requires Inv(s, 0) && Inv(s1, 0) && owner in s1.balances && 0 < rex <= s1.balances[owner].matured
    requires s1.pool.Some? && s1.pool.value.namebidProceeds == 0
    requires Evolves(s, s1) && PoolRuns(s.pool, s1.pool)
    requires SomeOpen(s.orders) ==> NoNewLending(s.cpuLoans, s1.cpuLoans) && NoNewLending(s.netLoans, s1.netLoans)
    requires SellMatured(s1, owner, rex, voteOk).Ok?
    ensures Evolves(s, SellMatured(s1, owner, rex, voteOk).value)
  {
    hide Inv, SettleAccount, FillOrder, PriceKept, PoolOk;
    var fill := FillOrder(s1, owner, rex).value;
    match fill
    case Filled(s2, proceeds, stakeChange) =>
      FillEvolves(s1, owner, rex);
      InvPool'(s);
      InvPool'(s1);
      PoolRunsTransitive(s.pool, s1.pool, s2.pool);
      SettleQuiet(s2, owner, proceeds);
      EvolvesThenQuiet(s, s2, SellMatured(s1, owner, rex, voteOk).value);
    case Unfilled =>
      SettleQuiet(s1, owner, 0);
      EvolvesThenQuiet(s, s1, SellMatured(s1, owner, rex, voteOk).value);
  }

  lemma SellRexEvolves(s: State, owner: Name, rex: int, voteOk: bool)
    requires Inv(s, 0) && ExecSellRex(s, owner, rex, voteOk).Ok?
    ensures Evolves(s, ExecSellRex(s, owner, rex, voteOk).value)
  {
    hide Inv, SellMatured, RunRex, Process, PriceKept;
    PoolPresent(s, 2);
    RunRexKeeps(s, 2);
    var s1 := RunRex(s, 2).value;
    RunEvolves(s, s1);
    ProcessStepKeeps(s1, owner);
    var s2 := PutBalance(s1, owner, Process(s1.balances[owner], Seconds(s1.now)));
    SellEvolves(s, s2, owner, rex, voteOk);
  }

  /** What a new loan does to the pool; it leaves clock, history and orders alone. */
  lemma CreateLoanPool(s: State, kind: Resource, owner: Name, receiver: Name, payment: int, fund: int)
    requires s.pool.Some? && CreateLoan(s, kind, owner, receiver, payment, fund).Ok?
    ensures var s1 := CreateLoan(s, kind, owner, receiver, payment, fund).value;
      && s1.now == s.now && s1.log == s.log && s1.orders == s.orders
      && s1.pool == Some(AddLoan(s.pool.value, payment, BancorOutput(s.pool.value.rent, s.pool.value.unlent, payment),
          true))
  {
    hide BancorOutput, UpdateTotals, AddLoan;
  }

  lemma CreateLoanEvolves(s: State, kind: Resource, owner: Name, receiver: Name, payment: int, fund: int, slack: int)
    requires Core(s, slack) && OrdersInv(s.orders, s.balances, s.now)
    requires LoansAvailable(s) && payment > 0 && CreateLoan(s, kind, owner, receiver, payment, fund).Ok?
    ensures var s1 := CreateLoan(s, kind, owner, receiver, payment, fund).value;
      && s1.now == s.now && s1.log == s.log && !SomeOpen(s1.orders)
      && s.pool.Some? && PriceHolds(s.pool, s1.pool) && s1.pool.value.rex == s.pool.value.rex
      && PoolOk(s.pool.value) && PoolOk(s1.pool.value)
  {
    hide Core, BancorOutput, PriceKept, PoolOk, LoansAvailable, CreateLoan;
    assert ClockOk(Seconds(s.now)) by { CoreClock(s, slack); }
    NoOpenOrders(s);
    AvailablePool(s);
    InvPool(s, slack);
    CreateLoanPool(s, kind, owner, receiver, payment, fund);
    AddLoanKeepsPool(s.pool.value, payment, true);
  }

  lemma CoreClock(s: State, slack: int)
    requires Core(s, slack)
    ensures ClockOk(Seconds(s.now))
  {
    hide SumOf;
  }

  lemma RentEvolves(s: State, kind: Resource, owner: Name, receiver: Name, payment: int, fund: int)
    requires Inv(s, 0) && ExecRent(s, kind, owner, receiver, payment, fund).Ok?
    ensures Evolves(s, ExecRent(s, kind, owner, receiver, payment, fund).value)
  {
    hide Core, RunRex, CreateLoan, OrdersInv, PriceKept, PoolOk;
    PoolPresent(s, 2);
    RunRexKeeps(s, 2);
    var s1 := RunRex(s, 2).value;
    RunEvolves(s, s1);
    FromFundKeeps(s1, owner, payment + fund, 0);
    var s2 := FromFund(s1, owner, payment + fund).value;
    assert LoansAvailable(s2) == LoansAvailable(s1);
    CreateLoanEvolves(s2, kind, owner, receiver, payment, fund, payment + fund);
    var s3 := CreateLoan(s2, kind, owner, receiver, payment, fund).value;
    AvailablePool(s2);
    InvPool'(s);
    PriceTransitive(s.pool.value, s2.pool.value, s3.pool.value);
  }

  lemma ChannelEvolves(s: State, from: Name, amount: int)
    requires Inv(s, 0) && ChannelToRex(s, from, amount).Ok? && amount > 0
    ensures Evolves(s, ChannelToRex(s, from, amount).value)
  {
    hide Core, PriceKept, PoolOk;
    if RexAvailable(s) {
      InvPool'(s);
      AddFeeKeepsPool(s.pool.value, amount);
    } else {
      QuietEvolves(s, s);
    }
  }

  lemma RamTradeEvolves(s: State, receiver: Name, bytes: nat, fee: nat)
    requires Inv(s, 0) && ExecRamTrade(s, receiver, bytes, fee).Ok?
    ensures Evolves(s, ExecRamTrade(s, receiver, bytes, fee).value)
  {
    hide SumOf, LockUpInv, BalancesInv, StakeInv, LoansInv, PoolInv, NamesInv, ChannelToRex;
    var row := if receiver in s.totals then s.totals[receiver] else Totals(0, 0, 0);
    var totals := s.totals[receiver := row.(ram := bytes)];
    assert forall r: Name ::
      NetWeight(totals, r) == NetWeight(s.totals, r) && CpuWeight(totals, r) == CpuWeight(s.totals, r);
    var s1 := s.(totals := totals);
    assert Inv(s1, 0);
    if fee > 0 {
      ChannelEvolves(s1, RAMFEE_ACCOUNT, fee);
    }
  }

  /** Maintenance followed by steps on the owner's own rows. */
  lemma MaintainedEvolves(s: State, a: Action)
    requires Inv(s, 0) && Exec(s, a).Ok?
    requires a.UpdateRex? || a.ConsolidateRex? || a.MvToSavings? || a.MvFrSavings? || a.CloseRex?
    ensures Evolves(s, Exec(s, a).value)
  {
    hide Inv, RunRex, SettleAccount, Consolidate, MoveToSavings, MoveFromSavings, Process, NoLoansOf, RexRun;
    if s.pool.Some? {
      RunRexKeeps(s, 2);
      var s1 := RunRex(s, 2).value;
      RunEvolves(s, s1);
      QuietAfter(s, s1, a);
      EvolvesThenQuiet(s, s1, Exec(s, a).value);
    } else {
      assert a.CloseRex? by {
        if !a.CloseRex? {
          PoolPresent(s, 2);
        }
      }
      SettleQuiet(s, a.owner, 0);
      QuietEvolves(s, Exec(s, a).value);
    }
  }

  lemma QuietAfter(s: State, s1: State, a: Action)
    requires s.pool.Some? && RunRex(s, 2) == Ok(s1) && Exec(s, a).Ok?
    requires a.UpdateRex? || a.ConsolidateRex? || a.MvToSavings? || a.MvFrSavings? || a.CloseRex?
    ensures Quiet(s1, Exec(s, a).value)
  {
    if a.UpdateRex? || a.CloseRex? {
      AccountQuiet(s, s1, a);
    } else {
      BucketsQuiet(s, s1, a);
    }
  }

  lemma AccountQuiet(s: State, s1: State, a: Action)
    requires s.pool.Some? && RunRex(s, 2) == Ok(s1) && Exec(s, a).Ok? && (a.UpdateRex? || a.CloseRex?)
    ensures Quiet(s1, Exec(s, a).value)
  {
    hide RunRex, SettleAccount, NoLoansOf, Seconds;
    match a
    case UpdateRex(owner, voteOk) =>
      var rb := s1.balances[owner];
      var stake := if s1.pool.value.rex > 0 then (rb.rex * s1.pool.value.lendable) / s1.pool.value.rex else 0;
      SettleQuiet(PutBalance(s1, owner, rb.(voteStake := stake)), owner, 0);
    case CloseRex(owner, voteOk) => SettleQuiet(s1, owner, 0);
  }

  lemma BucketsQuiet(s: State, s1: State, a: Action)
    requires s.pool.Some? && RunRex(s, 2) == Ok(s1) && Exec(s, a).Ok?
    requires a.ConsolidateRex? || a.MvToSavings? || a.MvFrSavings?
    ensures Quiet(s1, Exec(s, a).value)
  {
    hide RunRex, SettleAccount, Consolidate, MoveToSavings, MoveFromSavings, Process, Seconds;
    match a
    case ConsolidateRex(owner, voteOk) => SettleQuiet(s1, owner, 0);
    case MvToSavings(owner, rex, voteOk) => SettleQuiet(s1, owner, 0);
    case MvFrSavings(owner, rex, voteOk) =>
      SettleQuiet(PutBalance(s1, owner, MoveFromSavings(s1.balances[owner], Seconds(s1.now), rex).value), owner, 0);
  }

  /** Funding a loan changes its balance only. */
  lemma LoanFundsEvolve(s: State, kind: Resource, id: nat, balance: int, funds: map<Name, int>)
    requires id in Loans(s, kind)
    ensures Evolves(s, WithLoans(s, kind,
      Loans(s, kind)[id := Loans(s, kind)[id].(balance := balance)]).(funds := funds))
  {
    hide PriceKept, NoNewLending;
    SameLending(s.cpuLoans);
    SameLending(s.netLoans);
    BalanceLending(Loans(s, kind), id, balance);
    assert PriceHolds(s.pool, s.pool) by {
      if s.pool.Some? {
        PoolRunsReflexive(s.pool);
      }
    }
  }

  lemma SameLending(loans: map<nat, Loan>)
    ensures NoNewLending(loans, loans)
  {
  }

  lemma BalanceLending(loans: map<nat, Loan>, id: nat, balance: int)
    requires id in loans
    ensures NoNewLending(loans, loans[id := loans[id].(balance := balance)])
  {
  }

  lemma FundLoanEvolves(s: State, kind: Resource, owner: Name, id: nat, payment: int)
    requires ExecFundLoan(s, kind, owner, id, payment).Ok?
    ensures Evolves(s, ExecFundLoan(s, kind, owner, id, payment).value)
  {
    hide Evolves;
    var s1 := FromFund(s, owner, payment).value;
    LoanFundsEvolve(s, kind, id, Loans(s, kind)[id].balance + payment, s1.funds);
  }

  lemma DefundLoanEvolves(s: State, kind: Resource, owner: Name, id: nat, amount: int)
    requires ExecDefundLoan(s, kind, owner, id, amount).Ok?
    ensures Evolves(s, ExecDefundLoan(s, kind, owner, id, amount).value)
  {
    hide Evolves;
    LoanFundsEvolve(s, kind, id, Loans(s, kind)[id].balance - amount,
      ExecDefundLoan(s, kind, owner, id, amount).value.funds);
  }

  lemma BidQuiet(s: State, owner: Name, newname: Name, bid: int)
    requires Bid(s, owner, newname, bid).Ok?
    ensures Quiet(s, Bid(s, owner, newname, bid).value)
  {
    hide Transfer;
  }

  lemma CloseAuctionQuiet(s: State, due: bool)
    ensures Quiet(s, CloseAuction(s, due))
  {
    hide Least;
  }

  lemma WithdrawQuiet(s: State, owner: Name, amount: int, voteOk: bool)
    requires ExecWithdraw(s, owner, amount, voteOk).Ok?
    ensures Quiet(s, ExecWithdraw(s, owner, amount, voteOk).value)
  {
    hide SettleAccount, Transfer;
    SettleQuiet(s, owner, 0);
  }

  lemma LedgerEvolves(s: State, a: Action)
    requires Exec(s, a).Ok?
    requires a.Tick? || a.Deposit? || a.Withdraw? || a.CancelOrder? || a.SetRex? || a.Refunding? || a.VoteProducer?
             || a.BidName? || a.BidRefund? || a.AuctionClose? || a.TransferTokens?
    ensures Evolves(s, Exec(s, a).value)
  {
    hide Exec, Evolves, Quiet;
    if a.Tick? {
      TickEvolves(s, a.micros);
    } else {
      if a.Withdraw? || a.BidName? || a.AuctionClose? {
        StagedQuiet(s, a);
      } else {
        PlainQuiet(s, a);
      }
      QuietEvolves(s, Exec(s, a).value);
    }
  }

  lemma TickEvolves(s: State, micros: nat)
    requires Exec(s, Tick(micros)).Ok?
    ensures Evolves(s, Exec(s, Tick(micros)).value)
  {
    hide Seconds, Evolves;
    LaterQuiet(s, Exec(s, Tick(micros)).value);
  }

  lemma StagedQuiet(s: State, a: Action)
    requires Exec(s, a).Ok? && (a.Withdraw? || a.BidName? || a.AuctionClose?)
    ensures Quiet(s, Exec(s, a).value)
  {
    hide ExecWithdraw, Bid, CloseAuction, Quiet;
    match a
    case Withdraw(owner, amount, voteOk) => WithdrawQuiet(s, owner, amount, voteOk);
    case BidName(owner, newname, bid, nameOk) => BidQuiet(s, owner, newname, bid);
    case AuctionClose(due) => CloseAuctionQuiet(s, due);
  }

  lemma PlainQuiet(s: State, a: Action)
    requires Exec(s, a).Ok?
    requires a.Deposit? || a.CancelOrder? || a.SetRex? || a.Refunding? || a.VoteProducer? || a.BidRefund?
      || a.TransferTokens?
    ensures Quiet(s, Exec(s, a).value)
  {
    hide Seconds, Value, Transfer;
  }

  lemma LaterQuiet(s: State, s1: State)
    requires Quiet(s.(now := s1.now), s1) && s.now <= s1.now
    ensures Evolves(s, s1)
  {
  }

  /** Every action, performed or aborted. */
  lemma StepEvolves(s: State, a: Action)
    requires Inv(s, 0)
    ensures Evolves(s, Step(s, a))
  {
    hide Inv, Evolves, ExecDeposit, ExecWithdraw, ExecBuyRex, ExecUnstakeToRex, ExecSellRex, ExecCancelOrder, ExecRent,
         ExecFundLoan, ExecDefundLoan, ExecUpdateRex, ExecSetRex, RunRex, ExecConsolidate, ExecMvToSavings,
         ExecMvFrSavings, ExecCloseRex, ClaimRefund, SyncVoteStake, ExecRamTrade, Bid, RefundBid, CloseAuction,
         SendTokens, ChangeBandwidth;
    if Exec(s, a).Abort? {
      QuietEvolves(s, s);
    } else {
      match a
      case BuyRex(owner, amount, voteOk) => BuyRexEvolves(s, owner, amount, voteOk);
      case UnstakeToRex(owner, receiver, net, cpu, voteOk) => UnstakeEvolves(s, owner, receiver, net, cpu, voteOk);
      case SellRex(owner, rex, voteOk) => SellRexEvolves(s, owner, rex, voteOk);
      case Rent(kind, owner, receiver, payment, fund) => RentEvolves(s, kind, owner, receiver, payment, fund);
      case RexExec(max) =>
        PoolPresent(s, max);
        RunRexKeeps(s, max);
        RunEvolves(s, RunRex(s, max).value);
      case Delegate(owner, receiver, net, cpu, transfer, voteOk) =>
        BandwidthQuiet(s, owner, receiver, net, cpu, transfer);
        QuietEvolves(s, ChangeBandwidth(s, owner, receiver, net, cpu, transfer).value);
      case Undelegate(owner, receiver, net, cpu, activated, voteOk) =>
        BandwidthQuiet(s, owner, receiver, -net, -cpu, false);
        QuietEvolves(s, ChangeBandwidth(s, owner, receiver, -net, -cpu, false).value);
      case RamTrade(receiver, bytes, fee) => RamTradeEvolves(s, receiver, bytes, fee);
      case UpdateRex(_, _) => MaintainedEvolves(s, a);
      case ConsolidateRex(_, _) => MaintainedEvolves(s, a);
      case MvToSavings(_, _, _) => MaintainedEvolves(s, a);
      case MvFrSavings(_, _, _) => MaintainedEvolves(s, a);
      case CloseRex(_, _) => MaintainedEvolves(s, a);
      case FundLoan(kind, owner, id, payment) => FundLoanEvolves(s, kind, owner, id, payment);
      case DefundLoan(kind, owner, id, amount) => DefundLoanEvolves(s, kind, owner, id, amount);
      case _ => LedgerEvolves(s, a);
    }
  }

  // ---------- runs ----------

  /** Histories are only appended to, so an entry once made stays. */
  lemma {:induction false} HistoryGrows(s: State, actions: seq<Action>)
    requires Inv(s, 0) && forall i | 0 <= i < |actions| :: Admissible(actions[i])
    ensures s.log <= Run(s, actions).log && s.now <= Run(s, actions).now
    ensures s.pool.Some? ==> Run(s, actions).pool.Some?
  {
    hide Inv, Step, PriceKept;
    if actions != [] {
      var before := actions[..|actions| - 1];
      HistoryGrows(s, before);
      RunKeeps(s, before);
      StepEvolves(Run(s, before), actions[|actions| - 1]);
    }
  }

  /** The share price never falls: over any run during which shares are outstanding,
      `lendable / rex` at the end is not below `lendable / rex` at the start. */
  lemma {:induction false} SharePriceNeverFalls(s: State, actions: seq<Action>)
    requires Inv(s, 0) && forall i | 0 <= i < |actions| :: Admissible(actions[i])
    requires forall i | 0 <= i <= |actions| :: RexAvailable(Run(s, actions[..i]))
    ensures RexAvailable(s) && RexAvailable(Run(s, actions))
    ensures PriceKept(s.pool.value, Run(s, actions).pool.value)
  {
    hide Inv, Step, PriceKept, PoolOk;
    assert RexAvailable(Run(s, actions[..0]));
    assert actions[..|actions|] == actions;
    if actions != [] {
      var before := actions[..|actions| - 1];
      forall i | 0 <= i <= |before|
        ensures RexAvailable(Run(s, before[..i]))
      {
        assert before[..i] == actions[..i];
      }
      SharePriceNeverFalls(s, before);
      RunKeeps(s, before);
      RunKeeps(s, actions);
      var mid := Run(s, before);
      StepEvolves(mid, actions[|actions| - 1]);
      InvPool'(s);
      InvPool'(mid);
      InvPool'(Run(s, actions));
      PriceTransitive(s.pool.value, mid.pool.value, Run(s, actions).pool.value);
    } else {
      PoolRunsReflexive(s.pool);
    }
  }

  /** `rex` shares bought for `payment` are worth, in any later state `end` of a run without an
      empty pool, at least the payment less one unit, if a share cost at most one unit before. */
  lemma BoughtSharesOverRuns(
    pool: Option<Pool>, payment: int, rex: int, bought: State, actions: seq<Action>, end: State)
    requires payment > 0 && (pool.Some? ==> PoolOk(pool.value) && pool.value.lendable <= pool.value.rex)
    requires Inv(bought, 0) && bought.pool.Some? && Buy(pool, payment) == Ok((bought.pool.value, rex))
    requires forall i | 0 <= i < |actions| :: Admissible(actions[i])
    requires forall i | 0 <= i <= |actions| :: RexAvailable(Run(bought, actions[..i]))
    requires end == Run(bought, actions)
    ensures end.pool.Some? && Value(end.pool.value, rex).Ok?
    ensures rex <= end.pool.value.rex ==> Value(end.pool.value, rex).value >= payment - 1
  {
    hide Inv, Step, PriceKept, PoolOk, Run, Buy;
    SharePriceNeverFalls(bought, actions);
    RunKeeps(bought, actions);
    InvPool'(end);
    if rex <= end.pool.value.rex {
      BoughtSharesKeepTheirValue(pool, payment, end.pool.value);
    }
  }

  /** The lock-up, over whole runs: by any second `t`, what `owner` has sold (at once or from the
      queue) is at most what it had received on days that ended at least four days before. */
  lemma LockUpOverRuns(s: State, genesis: State, actions: seq<Action>, owner: Name, t: nat)
    requires ReachedBy(s, genesis, actions) && t < END_OF_DAYS
    ensures SoldBy(s.log, owner, t) <= ReceivedBy(s.log, owner, SellableSince(t))
    ensures Row(s.balances, owner).rex == ReceivedBy(s.log, owner, END_OF_DAYS) - SoldBy(s.log, owner, END_OF_DAYS)
  {
    hide SumOf, Run, RowOk, ReceivedBy, SoldBy;
    ReachableInv(s, genesis, actions);
    assert AccountLocked(s.log, owner, Row(s.balances, owner), Seconds(s.now));
  }

  /** While some order waits before and after an action, what is lent does not grow. */
  lemma LentKept(s: State, a: Action)
    requires Inv(s, 0) && Admissible(a) && s.pool.Some?
    requires SomeOpen(s.orders) && SomeOpen(Step(s, a).orders)
    ensures Step(s, a).pool.Some? && Step(s, a).pool.value.lent <= s.pool.value.lent
  {
    hide Inv, Step, PriceKept, NoNewLending;
    StepEvolves(s, a);
    StepKeeps(s, a);
    StakedShrinks(s, Step(s, a));
  }

  /** Over any run during which some order waits all the time, what is lent never grows. */
  lemma {:induction false} LentNeverGrowsWhileWaiting(s: State, actions: seq<Action>)
    requires Inv(s, 0) && s.pool.Some? && forall i | 0 <= i < |actions| :: Admissible(actions[i])
    requires forall i | 0 <= i <= |actions| :: SomeOpen(Run(s, actions[..i]).orders)
    ensures Run(s, actions).pool.Some? && Run(s, actions).pool.value.lent <= s.pool.value.lent
  {
    hide Inv, Step, SomeOpen;
    assert actions[..|actions|] == actions;
    if actions != [] {
      var before := actions[..|actions| - 1];
      forall i | 0 <= i <= |before|
        ensures SomeOpen(Run(s, before[..i]).orders)
      {
        assert before[..i] == actions[..i];
      }
      LentNeverGrowsWhileWaiting(s, before);
      RunKeeps(s, before);
      assert before == actions[..|actions| - 1];
      LentKept(Run(s, before), actions[|actions| - 1]);
    }
  }

  lemma StakedShrinks(s: State, s1: State)
    requires Inv(s, 0) && Inv(s1, 0) && s.pool.Some? && s1.pool.Some?
    requires NoNewLending(s.cpuLoans, s1.cpuLoans) && NoNewLending(s.netLoans, s1.netLoans)
    ensures s1.pool.value.lent <= s.pool.value.lent
  {
    hide SumOf, LockUpInv, BalancesInv, ResourcesInv, StakeInv, NamesInv, Solvent, PoolOk, NoNewLending;
    SubTableSum(s.cpuLoans, s1.cpuLoans);
    SubTableSum(s.netLoans, s1.netLoans);
  }

  lemma {:induction false} SubTableSum(before: map<nat, Loan>, after: map<nat, Loan>)
    requires NoNewLending(before, after) && forall id | id in before :: before[id].staked > 0
    ensures SumOf(after, Staked) <= SumOf(before, Staked)
    decreases |after|
  {
    if after.Keys == {} {
      assert after == map[];
      SumNonNegative(before, Staked);
    } else {
      var id :| id in after.Keys;
      assert (after - {id}).Keys == after.Keys - {id};
      SumSplit(after, Staked, id);
      SumSplit(before, Staked, id);
      SubTableSum(before - {id}, after - {id});
    }
  }
}
