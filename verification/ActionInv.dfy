/** The invariant over whole runs: every action keeps it, so every reachable state has it. */
module ActionInv {
  import opened Basics
  import opened Tables
  import opened Ledger
  import opened Maturity
  import opened RexPool
  import opened Rex
  import opened Staking
  import opened Actions
  import opened RexInvariant
  import opened LockUp
  import opened RexProofs
  import opened ActionProofs
  import opened StakeProofs

  /** The accounts that hold other people's tokens. */
  predicate Custodian(n: Name) {
    n == REX_ACCOUNT || n == STAKE_ACCOUNT || n == NAMES_ACCOUNT
  }

  /** Custodian accounts act only through the contract: none of them signs an action, receives a
      refund, or takes part in a transfer that the contract did not order. */
  predicate Admissible(a: Action) {
    match a
    case Deposit(owner, _) => !Custodian(owner)
    case Withdraw(owner, _, _) => !Custodian(owner)
    case Delegate(owner, _, _, _, _, _) => !Custodian(owner)
    case Undelegate(owner, _, _, _, _, _) => !Custodian(owner)
    case Refunding(owner) => !Custodian(owner)
    case BidName(owner, _, _, _) => !Custodian(owner)
    case BidRefund(owner, _) => !Custodian(owner)
    case TransferTokens(owner, to, _) => !Custodian(owner) && !Custodian(to)
    case _ => true
  }

  // ---------- actions on funds ----------

  lemma DepositKeeps(s: State, owner: Name, amount: int)
    requires Inv(s, 0) && !Custodian(owner) && ExecDeposit(s, owner, amount).Ok?
    ensures Inv(ExecDeposit(s, owner, amount).value, 0)
  {
    hide Core;
    TransferKeeps(s, owner, REX_ACCOUNT, amount, 0);
    ToFundKeeps(SendTokens(s, owner, REX_ACCOUNT, amount).value, owner, amount, amount);
  }

  /** Whoever has the amount in its fund can withdraw it: the REX account never lacks tokens. */
  lemma WithdrawKeeps(s: State, owner: Name, amount: int, voteOk: bool)
    requires Inv(s, 0) && !Custodian(owner) && amount > 0 && voteOk
    ensures ExecWithdraw(s, owner, amount, voteOk).Ok? <==>
      var (s1, inOrder) := SettleAccount(s, owner, 0); owner in s1.funds && amount <= s1.funds[owner]
    ensures ExecWithdraw(s, owner, amount, voteOk).Ok? ==> Inv(ExecWithdraw(s, owner, amount, voteOk).value, 0)
  {
    hide Core, SettleAccount;
    SettleInv(s, owner);
    var (s1, inOrder) := SettleAccount(s, owner, 0);
    if owner in s1.funds && amount <= s1.funds[owner] {
      FromFundKeeps(s1, owner, amount, 0);
      var s2 := FromFund(s1, owner, amount).value;
      LiabilitiesNonNegative(s2, amount);
      TransferKeeps(s2, REX_ACCOUNT, owner, amount, amount);
    }
  }

  /** The tokens on their way are really there. */
  lemma LiabilitiesNonNegative(s: State, slack: int)
    requires Inv(s, slack)
    ensures Holds(s.tokens, REX_ACCOUNT) >= slack + Lendable(s.pool) && Lendable(s.pool) >= 0
  {
    hide SumOf, LockUpInv, BalancesInv, ResourcesInv, StakeInv, NamesInv;
    SumNonNegative(s.funds, Whole);
    SumNonNegative(s.cpuLoans, LoanBalance);
    SumNonNegative(s.netLoans, LoanBalance);
    SumNonNegative(s.orders, Proceeds);
  }

  lemma BoughtOrders(s: State, s1: State)
    requires OrdersInv(s.orders, s.balances, s.now) && s1.orders == s.orders && s1.now == s.now
    requires forall n | n in s.balances :: n in s1.balances && s1.balances[n].matured >= s.balances[n].matured
    ensures OrdersInv(s1.orders, s1.balances, s1.now)
  {
  }

  lemma BuyRexKeeps(s: State, owner: Name, amount: int, voteOk: bool)
    requires Inv(s, 0) && ExecBuyRex(s, owner, amount, voteOk).Ok?
    ensures Inv(ExecBuyRex(s, owner, amount, voteOk).value, 0)
  {
    hide Core, SettleAccount, BuyShares, RunRex, OrdersInv;
    FromFundKeeps(s, owner, amount, 0);
    var s1 := FromFund(s, owner, amount).value;
    BuySharesKeeps(s1, owner, amount, amount);
    var s2 := BuyShares(s1, owner, amount).value;
    BoughtOrders(s1, s2);
    RunRexKeeps(s2, 2);
    SettleInv(RunRex(s2, 2).value, owner);
  }

  lemma UnstakeToRexKeeps(s: State, owner: Name, receiver: Name, net: int, cpu: int, voteOk: bool)
    requires Inv(s, 0) && ExecUnstakeToRex(s, owner, receiver, net, cpu, voteOk).Ok?
    ensures Inv(ExecUnstakeToRex(s, owner, receiver, net, cpu, voteOk).value, 0)
  {
    hide Core, SettleAccount, BuyShares, RunRex, OrdersInv, UnstakeForRex;
    UnstakeForRexKeeps(s, owner, receiver, net, cpu);
    var s1 := UnstakeForRex(s, owner, receiver, net, cpu).value;
    BuySharesKeeps(s1, owner, net + cpu, net + cpu);
    var s2 := BuyShares(s1, owner, net + cpu).value;
    BoughtOrders(s1, s2);
    RunRexKeeps(s2, 2);
    SettleInv(RunRex(s2, 2).value, owner);
  }

  // ---------- selling ----------

  /** Orders that remain covered when one balance shrinks. */
  lemma OrdersAfterSale(
    orders: map<Name, Order>, orders1: map<Name, Order>, balances: map<Name, RexBalance>,
      balances1: map<Name, RexBalance>,
    owner: Name, now: nat)
    requires OrdersInv(orders, balances, now) && owner in balances1 && balances1 == balances[owner := balances1[owner]]
    requires forall n | n in orders1 :: n in orders && orders1[n] == orders[n]
    requires owner in orders1 ==> orders1[owner].requested <= balances1[owner].matured
    requires owner in balances
    ensures OrdersInv(orders1, balances1, now)
  {
  }

  /** A sale that the pool can pay at once: the seller's open order, if any, stays covered. */
  lemma SellNowKeeps(s: State, owner: Name, rex: int, s1: State, proceeds: int)
    requires Inv(s, 0) && owner in s.balances && 0 < rex <= s.balances[owner].matured
    requires s.pool.Some? && s.pool.value.namebidProceeds == 0
    requires FillOrder(s, owner, rex).Ok? && FillOrder(s, owner, rex).value.Filled?
    requires s1 == FillOrder(s, owner, rex).value.s && proceeds == FillOrder(s, owner, rex).value.proceeds
    ensures var (s2, inOrder) := SettleAccount(s1, owner, proceeds);
      owner in s2.balances && (inOrder <= s2.balances[owner].matured ==> Inv(s2, 0))
  {
    hide Core, SettleAccount, FillOrder, PoolRuns, Value, Redeem, SoldFrom, Available, Seconds;
    FillKeeps(s, owner, rex, 0);
    SettleKeeps(s1, owner, proceeds, proceeds);
    var (s2, inOrder) := SettleAccount(s1, owner, proceeds);
    if inOrder <= s2.balances[owner].matured {
      OrdersAfterSale(s.orders, s2.orders, s.balances, s2.balances, owner, s.now);
    }
  }

  lemma QueueKeeps(s: State, owner: Name, rex: int)
    requires Inv(s, 0) && owner in s.balances && rex > 0
    requires owner in s.orders ==> s.orders[owner].isOpen
    requires QueueOrder(s, owner, rex).orders[owner].requested <= s.balances[owner].matured
    ensures Inv(QueueOrder(s, owner, rex), 0)
  {
    hide SumOf, LockUpInv, BalancesInv, ResourcesInv, StakeInv, NamesInv, PoolInv;
    var s1 := QueueOrder(s, owner, rex);
    SumStore(s.orders, Proceeds, owner, s1.orders[owner]);
  }

  lemma SellMaturedKeeps(s: State, owner: Name, rex: int, voteOk: bool)
    requires Inv(s, 0) && owner in s.balances && 0 < rex <= s.balances[owner].matured
    requires s.pool.Some? && s.pool.value.namebidProceeds == 0
    requires SellMatured(s, owner, rex, voteOk).Ok?
    ensures Inv(SellMatured(s, owner, rex, voteOk).value, 0)
  {
    hide Inv, SettleAccount, FillOrder;
    var fill := FillOrder(s, owner, rex).value;
    match fill
    case Filled(s1, proceeds, stakeChange) =>
      SellNowKeeps(s, owner, rex, s1, proceeds);
    case Unfilled =>
      SettleInv(s, owner);
      QueueKeeps(SettleAccount(s, owner, 0).0, owner, rex);
  }

  lemma SellRexKeeps(s: State, owner: Name, rex: int, voteOk: bool)
    requires Inv(s, 0) && ExecSellRex(s, owner, rex, voteOk).Ok?
    ensures Inv(ExecSellRex(s, owner, rex, voteOk).value, 0)
  {
    hide Inv, SellMatured, RunRex, Process, PoolRuns;
    PoolPresent(s, 2);
    RunRexKeeps(s, 2);
    var s1 := RunRex(s, 2).value;
    assert s1.pool.Some? by { PoolRunsSome(s.pool, s1.pool); }
    ProcessStepKeeps(s1, owner);
    SellMaturedKeeps(PutBalance(s1, owner, Process(s1.balances[owner], Seconds(s1.now))), owner, rex, voteOk);
  }

  lemma PoolRunsSome(p: Option<Pool>, q: Option<Pool>)
    requires PoolRuns(p, q)
    ensures p.Some? && q.Some?
  {
  }

  lemma PoolPresent(s: State, max: nat)
    requires RunRex(s, max).Ok?
    ensures s.pool.Some?
  {
  }

  lemma CancelKeeps(s: State, owner: Name)
    requires Inv(s, 0) && ExecCancelOrder(s, owner).Ok?
    ensures Inv(ExecCancelOrder(s, owner).value, 0)
  {
    hide SumOf, LockUpInv, BalancesInv, ResourcesInv, StakeInv, NamesInv, PoolInv, LoansInv;
    SumErase(s.orders, Proceeds, owner);
  }

  // ---------- loans ----------

  lemma CreateLoanKeeps(s: State, kind: Resource, owner: Name, receiver: Name, payment: int, fund: int)
    requires Core(s, payment + fund) && OrdersInv(s.orders, s.balances, s.now)
    requires LoansAvailable(s) && payment > 0 && fund >= 0 && owner in s.funds
    requires CreateLoan(s, kind, owner, receiver, payment, fund).Ok?
    ensures Inv(CreateLoan(s, kind, owner, receiver, payment, fund).value, 0)
  {
    hide SumOf, LockUpInv, BalancesInv, ResourcesInv, StakeInv, NamesInv, BancorOutput, UpdateTotals, NetWeight,
         CpuWeight, PriceKept, LoansAvailable;
    assert s.pool.Some? by { AvailablePool(s); }
    var pool := s.pool.value;
    NoOpenOrders(s);
    assert pool.rex > 0 by { AvailablePool(s); }
    AddLoanKeepsPool(pool, payment, true);
    var rented := BancorOutput(pool.rent, pool.unlent, payment);
    var pool1 := AddLoan(pool, payment, rented, true);
    var loan := Loan(owner, receiver, payment, fund, rented, s.now + LOAN_TERM);
    var loans := Loans(s, kind)[pool1.loanNum := loan];
    assert pool1.loanNum !in Loans(s, kind);
    LoanSumsStore(Loans(s, kind), pool1.loanNum, loan);
    var totals := NewLoanTotals(s, kind, pool1.loanNum, loan, payment + fund);
    LoanTableKeeps(s, kind, loans, pool1, s.funds, totals, payment + fund, 0);
    CreateLoanOutcome(s, kind, owner, receiver, payment, fund, totals);
  }

  lemma AvailablePool(s: State)
    requires LoansAvailable(s)
    ensures s.pool.Some? && s.pool.value.rex > 0
  {
  }

  lemma CreateLoanOutcome(s: State, kind: Resource, owner: Name, receiver: Name, payment: int, fund: int,
      totals: map<Name, Totals>)
    requires CreateLoan(s, kind, owner, receiver, payment, fund).Ok? && s.pool.Some?
    requires var rented := BancorOutput(s.pool.value.rent, s.pool.value.unlent, payment);
      UpdateTotals(s.totals, receiver, if kind == Net then rented else 0, if kind == Cpu then rented else 0)
        == Ok(totals)
    ensures var rented := BancorOutput(s.pool.value.rent, s.pool.value.unlent, payment);
      var pool1 := AddLoan(s.pool.value, payment, rented, true);
      payment < rented && CreateLoan(s, kind, owner, receiver, payment, fund).value
      == WithLoans(s, kind,
          Loans(s, kind)[pool1.loanNum := Loan(owner, receiver, payment, fund, rented, s.now + LOAN_TERM)]).(
           pool := Some(pool1), funds := s.funds, totals := totals)
  {
    hide BancorOutput, AddLoan, UpdateTotals;
  }

  lemma NewLoanTotals(s: State, kind: Resource, id: nat, loan: Loan, slack: int) returns (totals: map<Name, Totals>)
    requires Core(s, slack) && id !in Loans(s, kind) && loan.staked >= 0
    ensures UpdateTotals(s.totals, loan.receiver, if kind == Net then loan.staked else 0,
      if kind == Cpu then loan.staked else 0) == Ok(totals)
    ensures forall r: Name ::
      NetWeight(totals, r) - NetWeight(s.totals, r)
      == if kind == Net then SumOf(Loans(s, kind)[id := loan], LentTo(r)) - SumOf(s.netLoans, LentTo(r)) else 0
    ensures forall r: Name ::
      CpuWeight(totals, r) - CpuWeight(s.totals, r)
      == if kind == Cpu then SumOf(Loans(s, kind)[id := loan], LentTo(r)) - SumOf(s.cpuLoans, LentTo(r)) else 0
  {
    hide SumOf, Core, UpdateTotals, NetWeight, CpuWeight;
    WeightsNonNegative(s, loan.receiver, slack);
    UpdateTotalsEffect(s.totals, loan.receiver, if kind == Net then loan.staked else 0,
      if kind == Cpu then loan.staked else 0);
    totals := UpdateTotals(s.totals, loan.receiver, if kind == Net then loan.staked else 0,
      if kind == Cpu then loan.staked else 0).value;
    LoanSumsStore(Loans(s, kind), id, loan);
  }

  lemma WeightsNonNegative(s: State, receiver: Name, slack: int)
    requires Core(s, slack)
    ensures NetWeight(s.totals, receiver) >= 0 && CpuWeight(s.totals, receiver) >= 0
  {
    hide SumOf, LockUpInv, BalancesInv, StakeInv, NamesInv, PoolInv;
    SumNonNegative(s.cpuLoans, LentTo(receiver));
    SumNonNegative(s.netLoans, LentTo(receiver));
    SumNonNegative(s.delegations, NetTo(receiver));
    SumNonNegative(s.delegations, CpuTo(receiver));
  }

  lemma RentKeeps(s: State, kind: Resource, owner: Name, receiver: Name, payment: int, fund: int)
    requires Inv(s, 0) && ExecRent(s, kind, owner, receiver, payment, fund).Ok?
    ensures Inv(ExecRent(s, kind, owner, receiver, payment, fund).value, 0)
  {
    hide Core, RunRex, CreateLoan, OrdersInv, PoolRuns;
    PoolPresent(s, 2);
    RunRexKeeps(s, 2);
    var s1 := RunRex(s, 2).value;
    FromFundKeeps(s1, owner, payment + fund, 0);
    var s2 := FromFund(s1, owner, payment + fund).value;
    assert LoansAvailable(s2) == LoansAvailable(s1);
    CreateLoanKeeps(s2, kind, owner, receiver, payment, fund);
  }

  /** Changing the balance of one loan. */
  lemma LoanBalanceKeeps(s: State, kind: Resource, id: nat, balance: int, slack: int)
    requires Core(s, slack) && id in Loans(s, kind) && balance >= 0
    ensures var loan := Loans(s, kind)[id];
      Core(WithLoans(s, kind, Loans(s, kind)[id := loan.(balance := balance)]), slack + loan.balance - balance)
  {
    hide SumOf, LockUpInv, BalancesInv, StakeInv, NamesInv, ResourcesInv, NetWeight, CpuWeight, PoolOk, DelegationsInv,
         RefundsInv;
    var loan := Loans(s, kind)[id];
    var loans := Loans(s, kind)[id := loan.(balance := balance)];
    LoanSumsStore(Loans(s, kind), id, loan.(balance := balance));
    assert s.pool.Some?;
    LoanTableKeeps(s, kind, loans, s.pool.value, s.funds, s.totals, slack, slack + loan.balance - balance);
  }

  lemma FundLoanKeeps(s: State, kind: Resource, owner: Name, id: nat, payment: int)
    requires Inv(s, 0) && ExecFundLoan(s, kind, owner, id, payment).Ok?
    ensures Inv(ExecFundLoan(s, kind, owner, id, payment).value, 0)
  {
    hide Core, OrdersInv;
    FromFundKeeps(s, owner, payment, 0);
    var s1 := FromFund(s, owner, payment).value;
    var loan := Loans(s1, kind)[id];
    assert loan.balance >= 0 by { LoanRow(s1, kind, id, payment); }
    LoanBalanceKeeps(s1, kind, id, loan.balance + payment, payment);
  }

  lemma LoanRow(s: State, kind: Resource, id: nat, slack: int)
    requires Core(s, slack) && id in Loans(s, kind)
    ensures Loans(s, kind)[id].balance >= 0
  {
    hide SumOf, LockUpInv, BalancesInv, StakeInv, NamesInv, ResourcesInv, PoolInv;
  }

  lemma DefundLoanKeeps(s: State, kind: Resource, owner: Name, id: nat, amount: int)
    requires Inv(s, 0) && ExecDefundLoan(s, kind, owner, id, amount).Ok?
    ensures Inv(ExecDefundLoan(s, kind, owner, id, amount).value, 0)
  {
    hide Core, OrdersInv;
    var loan := Loans(s, kind)[id];
    LoanBalanceKeeps(s, kind, id, loan.balance - amount, 0);
    ToFundKeeps(WithLoans(s, kind, Loans(s, kind)[id := loan.(balance := loan.balance - amount)]), owner, amount,
      amount);
  }

  // ---------- maturities ----------

  lemma UpdateRexKeeps(s: State, owner: Name, voteOk: bool)
    requires Inv(s, 0) && ExecUpdateRex(s, owner, voteOk).Ok?
    ensures Inv(ExecUpdateRex(s, owner, voteOk).value, 0)
  {
    hide Inv, RunRex, SettleAccount, Process, PoolRuns;
    PoolPresent(s, 2);
    RunRexKeeps(s, 2);
    var s1 := RunRex(s, 2).value;
    var rb := s1.balances[owner];
    var stake := if s1.pool.value.rex > 0 then (rb.rex * s1.pool.value.lendable) / s1.pool.value.rex else 0;
    assert stake >= 0 by {
      if s1.pool.value.rex > 0 {
        SyncedStake(s1, owner);
      }
    }
    VoteStakeKeeps(s1, owner, stake);
    var s2 := PutBalance(s1, owner, rb.(voteStake := stake));
    SettleInv(s2, owner);
    ProcessStepKeeps(SettleAccount(s2, owner, 0).0, owner);
  }

  lemma ConsolidateKeeps(s: State, owner: Name, voteOk: bool)
    requires Inv(s, 0) && ExecConsolidate(s, owner, voteOk).Ok?
    ensures Inv(ExecConsolidate(s, owner, voteOk).value, 0)
  {
    hide Inv, RunRex, SettleAccount, Consolidate, PoolRuns;
    PoolPresent(s, 2);
    RunRexKeeps(s, 2);
    var s1 := RunRex(s, 2).value;
    SettleInv(s1, owner);
    var (s2, inOrder) := SettleAccount(s1, owner, 0);
    ConsolidateStepKeeps(s2, owner, inOrder);
  }

  lemma ConsolidateStepKeeps(s: State, owner: Name, inOrder: int)
    requires Inv(s, 0) && owner in s.balances && 0 <= inOrder <= s.balances[owner].matured
    requires owner in s.orders && s.orders[owner].isOpen ==> inOrder == s.orders[owner].requested
    ensures Inv(PutBalance(s, owner, Consolidate(s.balances[owner], Seconds(s.now), inOrder)), 0)
  {
    hide SumOf, Due, RowOk, PoolInv, LoansInv, ResourcesInv, LockUpInv, Consolidate, RexMaturity, NamesInv, StakeInv,
         Exposure, Solvent;
    var rb, second := s.balances[owner], Seconds(s.now);
    MaturityInRange(second);
    ConsolidateKeepsRow(rb, second, inOrder, second);
    forall x | second <= x < RexMaturity(second)
      ensures Exposure(Consolidate(rb, second, inOrder), x) <= Exposure(rb, x)
    {
      ConsolidateKeepsRow(rb, second, inOrder, x);
      ExposureBounds(rb, second, x);
    }
    PutBalanceKeeps(s, owner, Consolidate(rb, second, inOrder), 0);
    PutBalanceOrders(s, owner, Consolidate(rb, second, inOrder));
  }

  lemma MvToSavingsKeeps(s: State, owner: Name, rex: int, voteOk: bool)
    requires Inv(s, 0) && ExecMvToSavings(s, owner, rex, voteOk).Ok?
    ensures Inv(ExecMvToSavings(s, owner, rex, voteOk).value, 0)
  {
    hide Inv, RunRex, SettleAccount, MoveToSavings, PoolRuns;
    PoolPresent(s, 2);
    RunRexKeeps(s, 2);
    var s1 := RunRex(s, 2).value;
    SettleInv(s1, owner);
    var (s2, inOrder) := SettleAccount(s1, owner, 0);
    ToSavingsStepKeeps(s2, owner, rex, inOrder);
  }

  lemma ToSavingsStepKeeps(s: State, owner: Name, rex: int, inOrder: int)
    requires Inv(s, 0) && owner in s.balances && 0 <= inOrder <= s.balances[owner].matured && rex > 0
    requires owner in s.orders && s.orders[owner].isOpen ==> inOrder == s.orders[owner].requested
    requires MoveToSavings(s.balances[owner], Seconds(s.now), rex, inOrder).Ok?
    ensures Inv(PutBalance(s, owner, MoveToSavings(s.balances[owner], Seconds(s.now), rex, inOrder).value), 0)
  {
    hide SumOf, Due, RowOk, PoolInv, LoansInv, ResourcesInv, LockUpInv, MoveToSavings, RexMaturity, NamesInv, StakeInv,
         Exposure, Solvent;
    var rb, second := s.balances[owner], Seconds(s.now);
    MaturityInRange(second);
    MoveToSavingsKeepsRow(rb, second, rex, inOrder, second);
    var rb1 := MoveToSavings(rb, second, rex, inOrder).value;
    forall x | second <= x < RexMaturity(second)
      ensures Exposure(rb1, x) <= Exposure(rb, x)
    {
      MoveToSavingsKeepsRow(rb, second, rex, inOrder, x);
    }
    PutBalanceKeeps(s, owner, rb1, 0);
    PutBalanceOrders(s, owner, rb1);
  }

  lemma MvFrSavingsKeeps(s: State, owner: Name, rex: int, voteOk: bool)
    requires Inv(s, 0) && ExecMvFrSavings(s, owner, rex, voteOk).Ok?
    ensures Inv(ExecMvFrSavings(s, owner, rex, voteOk).value, 0)
  {
    hide Inv, RunRex, SettleAccount, MoveFromSavings, PoolRuns;
    PoolPresent(s, 2);
    RunRexKeeps(s, 2);
    var s1 := RunRex(s, 2).value;
    FromSavingsStepKeeps(s1, owner, rex);
    SettleInv(PutBalance(s1, owner, MoveFromSavings(s1.balances[owner], Seconds(s1.now), rex).value), owner);
  }

  lemma FromSavingsStepKeeps(s: State, owner: Name, rex: int)
    requires Inv(s, 0) && owner in s.balances && rex > 0
    requires MoveFromSavings(s.balances[owner], Seconds(s.now), rex).Ok?
    ensures Inv(PutBalance(s, owner, MoveFromSavings(s.balances[owner], Seconds(s.now), rex).value), 0)
  {
    hide SumOf, Due, RowOk, PoolInv, LoansInv, ResourcesInv, LockUpInv, MoveFromSavings, RexMaturity, NamesInv,
         StakeInv, Exposure, Solvent;
    var rb, second := s.balances[owner], Seconds(s.now);
    MaturityInRange(second);
    MoveFromSavingsKeepsRow(rb, second, rex, second);
    var rb1 := MoveFromSavings(rb, second, rex).value;
    forall x | second <= x < RexMaturity(second)
      ensures Exposure(rb1, x) <= Exposure(rb, x)
    {
      MoveFromSavingsKeepsRow(rb, second, rex, x);
    }
    PutBalanceKeeps(s, owner, rb1, 0);
    PutBalanceOrders(s, owner, rb1);
  }

  // ---------- closing ----------

  /** Closing an account never removes the row behind an open order, a loan or a fund. */
  lemma CloseRexKeeps(s: State, owner: Name, voteOk: bool)
    requires Inv(s, 0) && ExecCloseRex(s, owner, voteOk).Ok?
    ensures Inv(ExecCloseRex(s, owner, voteOk).value, 0)
  {
    hide Inv, RunRex, SettleAccount;
    var s1 := (if s.pool.Some? then RunRex(s, 2) else Ok(s)).value;
    if s.pool.Some? {
      RunRexKeeps(s, 2);
    }
    SettleInv(s1, owner);
    var s2 := SettleAccount(s1, owner, 0).0;
    var closesFund := NoLoansOf(s2.cpuLoans, owner) && NoLoansOf(s2.netLoans, owner)
                      && owner in s2.funds && s2.funds[owner] == 0;
    if closesFund {
      CloseFundKeeps(s2, owner);
    }
    CloseBalanceKeeps(if closesFund then s2.(funds := s2.funds - {owner}) else s2, owner);
  }

  lemma CloseFundKeeps(s: State, owner: Name)
    requires Inv(s, 0) && NoLoansOf(s.cpuLoans, owner) && NoLoansOf(s.netLoans, owner)
    requires owner in s.funds && s.funds[owner] == 0
    ensures Inv(s.(funds := s.funds - {owner}), 0)
  {
    hide SumOf, LockUpInv, BalancesInv, StakeInv, NamesInv, ResourcesInv, PoolInv;
    SumErase(s.funds, Whole, owner);
  }

  lemma CloseBalanceKeeps(s: State, owner: Name)
    requires Inv(s, 0) && (owner in s.balances ==> s.balances[owner].rex == 0)
    ensures Inv(s.(balances := s.balances - {owner}), 0)
  {
    hide SumOf, StakeInv, NamesInv, ResourcesInv, PoolOk, AccountLocked, RowOk, LoansInv, Due;
    SumErase(s.balances, Shares, owner);
    if owner in s.balances {
      var rb := s.balances[owner];
      BalanceWithinPool(s, owner, 0);
      EmptyRowOk(Seconds(s.now));
      var balances1 := s.balances - {owner};
      forall n: Name
        ensures AccountLocked(s.log, n, Row(balances1, n), Seconds(s.now))
      {
        assert AccountLocked(s.log, n, Row(s.balances, n), Seconds(s.now));
        if n == owner {
          EmptiedStaysLocked(s.log, owner, rb, Seconds(s.now));
        }
      }
    } else {
      assert s.balances - {owner} == s.balances;
    }
  }

  lemma EmptiedStaysLocked(log: seq<Event>, owner: Name, rb: RexBalance, second: nat)
    requires LogInv(log, second) && ClockOk(second) && AccountLocked(log, owner, rb, second) && RowOk(rb, second)
    requires rb.rex == 0
    ensures AccountLocked(log, owner, RexBalance(0, 0, 0, []), second)
  {
    hide RowOk, SoldBy, ReceivedBy;
    var empty := RexBalance(0, 0, 0, []);
    EmptyRowOk(second);
    forall x | second <= x < RexMaturity(second)
      ensures Exposure(empty, x) <= Exposure(rb, x)
    {
      MaturityInRange(second);
      ExposureBounds(rb, second, x);
      MaturedNonNegative(rb, second);
    }
    Rearranged(log, owner, rb, empty, second);
  }

  lemma MaturedNonNegative(rb: RexBalance, second: nat)
    requires RowOk(rb, second)
    ensures rb.matured >= 0
  {
  }

  // ---------- everything else ----------

  lemma SetRexKeeps(s: State, balance: int)
    requires Inv(s, 0) && ExecSetRex(s, balance).Ok?
    ensures Inv(ExecSetRex(s, balance).value, 0)
  {
    hide SumOf, LockUpInv, BalancesInv, StakeInv, ResourcesInv, LoansInv;
  }

  lemma RamTradeKeeps(s: State, receiver: Name, bytes: nat, fee: nat)
    requires Inv(s, 0) && ExecRamTrade(s, receiver, bytes, fee).Ok?
    ensures Inv(ExecRamTrade(s, receiver, bytes, fee).value, 0)
  {
    hide SumOf, LockUpInv, BalancesInv, StakeInv, LoansInv, PoolInv, NamesInv, ChannelToRex;
    var row := if receiver in s.totals then s.totals[receiver] else Totals(0, 0, 0);
    var totals := s.totals[receiver := row.(ram := bytes)];
    assert forall r: Name ::
      NetWeight(totals, r) == NetWeight(s.totals, r) && CpuWeight(totals, r) == CpuWeight(s.totals, r);
    var s1 := s.(totals := totals);
    assert Core(s1, 0);
    if fee > 0 {
      ChannelKeeps(s1, RAMFEE_ACCOUNT, fee, 0);
      ChannelFrame(s1, RAMFEE_ACCOUNT, fee);
    }
  }

  lemma ChannelFrame(s: State, from: Name, amount: int)
    requires ChannelToRex(s, from, amount).Ok?
    ensures var s1 := ChannelToRex(s, from, amount).value; s1 == s.(pool := s1.pool, tokens := s1.tokens)
  {
  }

  lemma TickKeeps(s: State, micros: nat)
    requires Inv(s, 0) && ClockOk(Seconds(s.now + micros))
    ensures Inv(s.(now := s.now + micros), 0)
  {
    hide SumOf, StakeInv, NamesInv, ResourcesInv, PoolInv, RowOk, Due, SoldBy, ReceivedBy, Exposure;
    SecondsMonotone(s.now, s.now + micros);
    forall n | n in s.balances
      ensures RowOk(s.balances[n], Seconds(s.now + micros))
    {
      RowOkLater(s.balances[n], Seconds(s.now), Seconds(s.now + micros));
    }
    forall n: Name
      ensures AccountLocked(s.log, n, Row(s.balances, n), Seconds(s.now + micros))
    {
      assert AccountLocked(s.log, n, Row(s.balances, n), Seconds(s.now));
    }
  }

  lemma SecondsMonotone(a: nat, b: nat)
    requires a <= b
    ensures Seconds(a) <= Seconds(b)
  {
  }

  lemma OutsideTransferKeeps(s: State, from: Name, to: Name, quantity: int)
    requires Inv(s, 0) && !Custodian(from) && !Custodian(to) && SendTokens(s, from, to, quantity).Ok?
    ensures Inv(SendTokens(s, from, to, quantity).value, 0)
  {
    hide Core;
    TransferKeeps(s, from, to, quantity, 0);
  }

  // ---------- runs ----------

  /** Every action, performed or aborted, keeps the invariant. */
  lemma StepKeeps(s: State, a: Action)
    requires Inv(s, 0) && Admissible(a)
    ensures Inv(Step(s, a), 0)
  {
    if Exec(s, a).Ok? {
      ExecKeeps(s, a);
    }
  }

  lemma ExecKeeps(s: State, a: Action)
    requires Inv(s, 0) && Admissible(a) && Exec(s, a).Ok?
    ensures Inv(Exec(s, a).value, 0)
  {
    hide Inv, ExecDeposit, ExecWithdraw, ExecBuyRex, ExecUnstakeToRex, ExecSellRex, ExecCancelOrder, ExecRent,
         ExecFundLoan, ExecDefundLoan, ExecUpdateRex, ExecSetRex, RunRex, ExecConsolidate, ExecMvToSavings,
         ExecMvFrSavings, ExecCloseRex, ClaimRefund, SyncVoteStake, ExecRamTrade, Bid, RefundBid, CloseAuction,
         SendTokens, ChangeBandwidth;
    match a
    case Tick(micros) => TickKeeps(s, micros);
    case Deposit(owner, amount) => DepositKeeps(s, owner, amount);
    case Withdraw(owner, amount, voteOk) =>
      WithdrawChecks(s, owner, amount, voteOk);
      WithdrawKeeps(s, owner, amount, voteOk);
    case BuyRex(owner, amount, voteOk) => BuyRexKeeps(s, owner, amount, voteOk);
    case UnstakeToRex(owner, receiver, net, cpu, voteOk) => UnstakeToRexKeeps(s, owner, receiver, net, cpu, voteOk);
    case SellRex(owner, rex, voteOk) => SellRexKeeps(s, owner, rex, voteOk);
    case CancelOrder(owner) => CancelKeeps(s, owner);
    case Rent(kind, owner, receiver, payment, fund) => RentKeeps(s, kind, owner, receiver, payment, fund);
    case FundLoan(kind, owner, id, payment) => FundLoanKeeps(s, kind, owner, id, payment);
    case DefundLoan(kind, owner, id, amount) => DefundLoanKeeps(s, kind, owner, id, amount);
    case UpdateRex(owner, voteOk) => UpdateRexKeeps(s, owner, voteOk);
    case SetRex(balance) => SetRexKeeps(s, balance);
    case RexExec(max) =>
      PoolPresent(s, max);
      RunRexKeeps(s, max);
    case ConsolidateRex(owner, voteOk) => ConsolidateKeeps(s, owner, voteOk);
    case MvToSavings(owner, rex, voteOk) => MvToSavingsKeeps(s, owner, rex, voteOk);
    case MvFrSavings(owner, rex, voteOk) => MvFrSavingsKeeps(s, owner, rex, voteOk);
    case CloseRex(owner, voteOk) => CloseRexKeeps(s, owner, voteOk);
    case Delegate(owner, receiver, net, cpu, transfer, voteOk) =>
      ChangeBandwidthKeeps(s, owner, receiver, net, cpu, transfer);
    case Undelegate(owner, receiver, net, cpu, activated, voteOk) =>
      ChangeBandwidthKeeps(s, owner, receiver, -net, -cpu, false);
    case Refunding(owner) => ClaimRefundKeeps(s, owner);
    case VoteProducer(owner) => SyncVoteStakeKeeps(s, owner);
    case RamTrade(receiver, bytes, fee) => RamTradeKeeps(s, receiver, bytes, fee);
    case BidName(owner, newname, bid, nameOk) => BidKeeps(s, owner, newname, bid);
    case BidRefund(owner, newname) => RefundBidKeeps(s, owner, newname);
    case AuctionClose(due) => CloseAuctionKeeps(s, due);
    case TransferTokens(owner, to, quantity) => OutsideTransferKeeps(s, owner, to, quantity);
  }

  lemma WithdrawChecks(s: State, owner: Name, amount: int, voteOk: bool)
    requires ExecWithdraw(s, owner, amount, voteOk).Ok?
    ensures amount > 0 && voteOk
  {
  }

  /** Every state that any run of admissible actions reaches. */
  lemma {:induction false} RunKeeps(s: State, actions: seq<Action>)
    requires Inv(s, 0) && forall i | 0 <= i < |actions| :: Admissible(actions[i])
    ensures Inv(Run(s, actions), 0)
  {
    hide Inv, Step;
    if actions != [] {
      RunKeeps(s, actions[..|actions| - 1]);
      StepKeeps(Run(s, actions[..|actions| - 1]), actions[|actions| - 1]);
    }
  }
}
