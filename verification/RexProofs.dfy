/** Every internal step of the exchange keeps the invariant. */
module RexProofs {
  import opened Basics
  import opened Arithmetic
  import opened Tables
  import opened Ledger
  import opened Maturity
  import opened RexPool
  import opened Rex
  import opened RexInvariant
  import opened LockUp

  // ---------- tokens and funds ----------

  lemma TransferKeeps(s: State, from: Name, to: Name, quantity: int, slack: int)
    requires Core(s, slack) && SendTokens(s, from, to, quantity).Ok?
    requires from != STAKE_ACCOUNT && from != NAMES_ACCOUNT && to != STAKE_ACCOUNT
    ensures var s1 := SendTokens(s, from, to, quantity).value;
      Core(s1, slack + (if to == REX_ACCOUNT then quantity else 0) - (if from == REX_ACCOUNT then quantity else 0))
  {
    hide SumOf, LockUpInv, BalancesInv, ResourcesInv, DelegationsInv, RefundsInv;
    TransferMoves(s.tokens, from, to, quantity);
  }

  lemma FromFundKeeps(s: State, owner: Name, amount: int, slack: int)
    requires Core(s, slack) && FromFund(s, owner, amount).Ok?
    ensures Core(FromFund(s, owner, amount).value, slack + amount)
  {
    hide SumOf, LockUpInv, BalancesInv, ResourcesInv, DelegationsInv, RefundsInv;
    SumStore(s.funds, Whole, owner, s.funds[owner] - amount);
  }

  lemma ToFundKeeps(s: State, owner: Name, amount: int, slack: int)
    requires Core(s, slack) && amount > 0
    ensures ToFund(s, owner, amount).Ok?
    ensures Core(ToFund(s, owner, amount).value, slack - amount)
  {
    hide SumOf, LockUpInv, BalancesInv, ResourcesInv, DelegationsInv, RefundsInv;
    SumStore(s.funds, Whole, owner, (if owner in s.funds then s.funds[owner] else 0) + amount);
  }

  // ---------- fees ----------

  /** A fee paid by an account that is not one of the custodians. */
  lemma ChannelKeeps(s: State, from: Name, amount: int, slack: int)
    requires Core(s, slack) && ChannelToRex(s, from, amount).Ok? && amount > 0
    requires from != STAKE_ACCOUNT && from != NAMES_ACCOUNT
    ensures Core(ChannelToRex(s, from, amount).value, slack)
  {
    hide SumOf, LockUpInv, BalancesInv, ResourcesInv, DelegationsInv, RefundsInv;
    if RexAvailable(s) {
      AddFeeKeepsPool(s.pool.value, amount);
      TransferMoves(s.tokens, from, REX_ACCOUNT, amount);
    }
  }

  /** Moving closed bids from the names account into the pool. */
  lemma NamebidsMove(s: State, tokens: map<Name, nat>, pool: Pool, amount: int)
    requires Core(s, 0) && s.pool.Some? && amount == s.pool.value.namebidProceeds > 0
    requires Transfer(s.tokens, NAMES_ACCOUNT, REX_ACCOUNT, amount) == Ok(tokens)
    requires PoolOk(pool) && pool == AddFee(s.pool.value, amount).(namebidProceeds := 0)
    ensures Core(s.(pool := Some(pool), tokens := tokens), 0)
  {
    hide SumOf, LockUpInv, BalancesInv, ResourcesInv, LoansInv, DelegationsInv, RefundsInv, Deadlines, PoolOk;
    TransferMoves(s.tokens, NAMES_ACCOUNT, REX_ACCOUNT, amount);
  }

  /** Channelling name-bid proceeds never fails and drops nothing. */
  lemma ChannelNamebidsKeeps(s: State)
    requires Core(s, 0) && s.pool.Some?
    ensures ChannelNamebids(s).Ok?
    ensures var s1 := ChannelNamebids(s).value;
      && Core(s1, 0) && s1.pool.Some? && s1.pool.value.namebidProceeds == 0
      && s1 == s.(pool := s1.pool, tokens := s1.tokens)
      && s1.pool.value.lendable == s.pool.value.lendable + s.pool.value.namebidProceeds
      && s1.pool.value.rex == s.pool.value.rex && s1.pool.value.lent == s.pool.value.lent
      && PriceKept(s.pool.value, s1.pool.value)
  {
    hide SumOf, LockUpInv, BalancesInv, ResourcesInv, LoansInv, DelegationsInv, RefundsInv, Deadlines, StakeInv;
    var proceeds := s.pool.value.namebidProceeds;
    if proceeds > 0 {
      AddFeeKeepsPool(s.pool.value, proceeds);
      SumNonNegative(s.bids, OpenBid);
      SumNonNegative(s.bidRefunds, Whole);
      var tokens := Transfer(s.tokens, NAMES_ACCOUNT, REX_ACCOUNT, proceeds).value;
      NamebidsMove(s, tokens, AddFee(s.pool.value, proceeds).(namebidProceeds := 0), proceeds);
    }
  }

  // ---------- resource totals ----------

  lemma UpdateTotalsEffect(totals: map<Name, Totals>, receiver: Name, net: int, cpu: int)
    requires NetWeight(totals, receiver) + net >= 0 && CpuWeight(totals, receiver) + cpu >= 0
    ensures UpdateTotals(totals, receiver, net, cpu).Ok?
    ensures var after := UpdateTotals(totals, receiver, net, cpu).value;
      forall r: Name ::
        && NetWeight(after, r) == NetWeight(totals, r) + (if r == receiver then net else 0)
        && CpuWeight(after, r) == CpuWeight(totals, r) + (if r == receiver then cpu else 0)
  {
  }

  lemma UpdateTotalsChecks(totals: map<Name, Totals>, receiver: Name, net: int, cpu: int)
    requires UpdateTotals(totals, receiver, net, cpu).Ok? && (net != 0 || cpu != 0)
    ensures NetWeight(totals, receiver) + net >= 0 && CpuWeight(totals, receiver) + cpu >= 0
  {
  }

  // ---------- expired loans ----------

  /** While loans are available, no order is open. */
  lemma NoOpenOrders(s: State)
    requires LoansAvailable(s) && OrdersInv(s.orders, s.balances, s.now) && ClockOk(Seconds(s.now))
    ensures forall n | n in s.orders :: !s.orders[n].isOpen
  {
    forall n | n in s.orders
      ensures !s.orders[n].isOpen
    {
      var first := FirstOrder(s.orders).value;
      assert n != first ==> Before(ByTime(s.orders), first, n);
    }
  }

  /** An open order blocks lending. */
  lemma OpenOrderBlocksLoans(s: State, n: Name)
    requires OrdersInv(s.orders, s.balances, s.now) && ClockOk(Seconds(s.now))
    requires n in s.orders && s.orders[n].isOpen
    ensures !LoansAvailable(s)
  {
    if LoansAvailable(s) {
      NoOpenOrders(s);
    }
  }

  lemma LoanSumsStore(loans: map<nat, Loan>, id: nat, l: Loan)
    ensures SumOf(loans[id := l], Staked) == SumOf(loans, Staked) - Part(loans, Staked, id) + l.staked
    ensures SumOf(loans[id := l], LoanBalance) == SumOf(loans, LoanBalance) - Part(loans, LoanBalance, id) + l.balance
    ensures forall r: Name ::
      SumOf(loans[id := l], LentTo(r)) == SumOf(loans, LentTo(r)) - Part(loans, LentTo(r), id) + LentTo(r)(l)
  {
    SumStore(loans, Staked, id, l);
    SumStore(loans, LoanBalance, id, l);
    forall r: Name
      ensures SumOf(loans[id := l], LentTo(r)) == SumOf(loans, LentTo(r)) - Part(loans, LentTo(r), id) + LentTo(r)(l)
    {
      SumStore(loans, LentTo(r), id, l);
    }
  }

  lemma LoanSumsErase(loans: map<nat, Loan>, id: nat)
    ensures SumOf(loans - {id}, Staked) == SumOf(loans, Staked) - Part(loans, Staked, id)
    ensures SumOf(loans - {id}, LoanBalance) == SumOf(loans, LoanBalance) - Part(loans, LoanBalance, id)
    ensures forall r: Name :: SumOf(loans - {id}, LentTo(r)) == SumOf(loans, LentTo(r)) - Part(loans, LentTo(r), id)
  {
    SumErase(loans, Staked, id);
    SumErase(loans, LoanBalance, id);
    forall r: Name
      ensures SumOf(loans - {id}, LentTo(r)) == SumOf(loans, LentTo(r)) - Part(loans, LentTo(r), id)
    {
      SumErase(loans, LentTo(r), id);
    }
  }

  /** Loans to a receiver are part of its weight. */
  lemma LoanWithinTotals(s: State, kind: Resource, id: nat)
    requires Core(s, 0) && id in Loans(s, kind)
    ensures var l := Loans(s, kind)[id];
      && 0 < l.staked <= s.pool.value.lent
      && (if kind == Net then NetWeight(s.totals, l.receiver) else CpuWeight(s.totals, l.receiver)) >= l.staked
      && NetWeight(s.totals, l.receiver) >= 0 && CpuWeight(s.totals, l.receiver) >= 0
  {
    hide SumOf, LockUpInv, BalancesInv;
    var l := Loans(s, kind)[id];
    SumBoundsRow(s.cpuLoans, Staked, id);
    SumBoundsRow(s.netLoans, Staked, id);
    SumBoundsRow(s.cpuLoans, LentTo(l.receiver), id);
    SumBoundsRow(s.netLoans, LentTo(l.receiver), id);
    SumNonNegative(s.delegations, NetTo(l.receiver));
    SumNonNegative(s.delegations, CpuTo(l.receiver));
  }

  /** What expiring a loan leaves alone, and that lending does not grow while an order is open. */
  ghost predicate Expired(s: State, s1: State, kind: Resource, id: nat) {
    && s1 == s.(pool := s1.pool, funds := s1.funds, cpuLoans := s1.cpuLoans, netLoans := s1.netLoans,
        totals := s1.totals)
    && s.pool.Some? && s1.pool.Some?
    && PriceKept(s.pool.value, s1.pool.value) && s1.pool.value.rex == s.pool.value.rex
    && s1.pool.value.namebidProceeds == s.pool.value.namebidProceeds
    && s1.pool.value.loanNum == s.pool.value.loanNum
    && (if kind == Cpu then s1.netLoans == s.netLoans else s1.cpuLoans == s.cpuLoans)
    && (Loans(s1, kind) == Loans(s, kind) - {id}
        || (LoansAvailable(s) && id in Loans(s, kind) && id in Loans(s1, kind)
            && Loans(s1, kind) == Loans(s, kind)[id := Loans(s1, kind)[id]]))
  }

  /** Replacing one loan table, with the pool, funds and totals that go with it. */
  lemma LoanTableKeeps(
    s: State, kind: Resource, loans: map<nat, Loan>, pool: Pool, funds: map<Name, int>, totals: map<Name, Totals>,
    slack: int, slack1: int)
    requires Core(s, slack) && s.pool.Some?
    requires PoolOk(pool) && pool.rex == s.pool.value.rex && pool.namebidProceeds == s.pool.value.namebidProceeds
    requires pool.loanNum >= s.pool.value.loanNum
    requires FundsInv(funds) && s.funds.Keys <= funds.Keys
    requires LoansInv(loans, funds, s.now, pool.loanNum) && Deadlines(s.orders, loans)
    requires pool.lent - SumOf(loans, Staked) == s.pool.value.lent - SumOf(Loans(s, kind), Staked)
    requires SumOf(funds, Whole) + pool.lendable + SumOf(loans, LoanBalance) + slack1
          == SumOf(s.funds, Whole) + s.pool.value.lendable + SumOf(Loans(s, kind), LoanBalance) + slack
    requires forall r: Name ::
      NetWeight(totals, r) - NetWeight(s.totals, r)
      == if kind == Net then SumOf(loans, LentTo(r)) - SumOf(s.netLoans, LentTo(r)) else 0
    requires forall r: Name ::
      CpuWeight(totals, r) - CpuWeight(s.totals, r)
      == if kind == Cpu then SumOf(loans, LentTo(r)) - SumOf(s.cpuLoans, LentTo(r)) else 0
    ensures Core(WithLoans(s, kind, loans).(pool := Some(pool), funds := funds, totals := totals), slack1)
  {
    hide SumOf, LockUpInv, BalancesInv, DelegationsInv, RefundsInv, StakeInv, PoolOk, Deadlines, FundsInv, ResourcesInv,
         NetWeight, CpuWeight, LoansInv;
    var s1 := WithLoans(s, kind, loans).(pool := Some(pool), funds := funds, totals := totals);
    assert ResourcesInv(totals, s.delegations, s1.cpuLoans, s1.netLoans) by {
      TableResources(s, kind, loans, totals);
    }
    MoreFunds(s.cpuLoans, s.funds, funds, s.now, s.pool.value.loanNum, pool.loanNum);
    MoreFunds(s.netLoans, s.funds, funds, s.now, s.pool.value.loanNum, pool.loanNum);
  }

  lemma TableResources(s: State, kind: Resource, loans: map<nat, Loan>, totals: map<Name, Totals>)
    requires ResourcesInv(s.totals, s.delegations, s.cpuLoans, s.netLoans)
    requires forall r: Name ::
      NetWeight(totals, r) - NetWeight(s.totals, r)
      == if kind == Net then SumOf(loans, LentTo(r)) - SumOf(s.netLoans, LentTo(r)) else 0
    requires forall r: Name ::
      CpuWeight(totals, r) - CpuWeight(s.totals, r)
      == if kind == Cpu then SumOf(loans, LentTo(r)) - SumOf(s.cpuLoans, LentTo(r)) else 0
    ensures ResourcesInv(totals, s.delegations, WithLoans(s, kind, loans).cpuLoans, WithLoans(s, kind, loans).netLoans)
  {
    hide SumOf, NetWeight, CpuWeight;
  }

  lemma MoreFunds(loans: map<nat, Loan>, funds: map<Name, int>, funds1: map<Name, int>, now: nat, loanNum: nat,
      loanNum1: nat)
    requires LoansInv(loans, funds, now, loanNum) && funds.Keys <= funds1.Keys && loanNum <= loanNum1
    ensures LoansInv(loans, funds1, now, loanNum1)
  {
  }

  lemma RenewOutcome(s: State, kind: Resource, id: nat, rented: int, totals: map<Name, Totals>)
    requires id in Loans(s, kind) && s.pool.Some?
    requires var loan := Loans(s, kind)[id]; var delta := rented - loan.staked;
      UpdateTotals(s.totals, loan.receiver, if kind == Net then delta else 0, if kind == Cpu then delta else 0)
        == Ok(totals)
    ensures var loan := Loans(s, kind)[id];
      RenewLoan(s, kind, id, rented) == Ok(WithLoans(s, kind, Loans(s, kind)[id := Renewed(loan, rented)]).(
        pool := Some(AddLoan(s.pool.value, loan.payment, rented, false)), funds := s.funds, totals := totals))
  {
    hide UpdateTotals, AddLoan;
  }

  lemma CloseOutcome(s: State, kind: Resource, id: nat, funds: map<Name, int>, totals: map<Name, Totals>)
    requires id in Loans(s, kind)
    requires var loan := Loans(s, kind)[id];
      && UpdateTotals(s.totals, loan.receiver, if kind == Net then -loan.staked else 0,
          if kind == Cpu then -loan.staked else 0) == Ok(totals)
      && loan.from in s.funds && funds == Refunded(s.funds, loan)
    ensures CloseLoan(s, kind, id) == Ok(WithLoans(s, kind, Loans(s, kind) - {id}).(funds := funds, totals := totals))
  {
    hide UpdateTotals;
  }

  function Refunded(funds: map<Name, int>, loan: Loan): map<Name, int>
    requires loan.from in funds
  {
    if loan.balance > 0 then funds[loan.from := funds[loan.from] + loan.balance] else funds
  }

  lemma RefundedFunds(funds: map<Name, int>, loan: Loan)
    requires loan.from in funds && loan.balance >= 0 && FundsInv(funds)
    ensures FundsInv(Refunded(funds, loan)) && Refunded(funds, loan).Keys == funds.Keys
    ensures SumOf(Refunded(funds, loan), Whole) == SumOf(funds, Whole) + loan.balance
  {
    hide SumOf;
    if loan.balance > 0 {
      SumStore(funds, Whole, loan.from, funds[loan.from] + loan.balance);
    }
  }

  lemma RenewTotals(s: State, kind: Resource, id: nat, loan1: Loan) returns (totals: map<Name, Totals>)
    requires Core(s, 0) && id in Loans(s, kind)
    requires var loan := Loans(s, kind)[id]; loan1.receiver == loan.receiver && loan1.staked >= 0
    ensures var loan := Loans(s, kind)[id]; var delta := loan1.staked - loan.staked;
      UpdateTotals(s.totals, loan.receiver, if kind == Net then delta else 0, if kind == Cpu then delta else 0)
        == Ok(totals)
    ensures forall r: Name ::
      NetWeight(totals, r) - NetWeight(s.totals, r)
      == if kind == Net then SumOf(Loans(s, kind)[id := loan1], LentTo(r)) - SumOf(s.netLoans, LentTo(r)) else 0
    ensures forall r: Name ::
      CpuWeight(totals, r) - CpuWeight(s.totals, r)
      == if kind == Cpu then SumOf(Loans(s, kind)[id := loan1], LentTo(r)) - SumOf(s.cpuLoans, LentTo(r)) else 0
  {
    hide SumOf, Core, UpdateTotals, NetWeight, CpuWeight;
    var loan := Loans(s, kind)[id];
    LoanWithinTotals(s, kind, id);
    var delta := loan1.staked - loan.staked;
    UpdateTotalsEffect(s.totals, loan.receiver, if kind == Net then delta else 0, if kind == Cpu then delta else 0);
    totals := UpdateTotals(s.totals, loan.receiver, if kind == Net then delta else 0,
      if kind == Cpu then delta else 0).value;
    LoanSumsStore(Loans(s, kind), id, loan1);
  }

  lemma CloseTotals(s: State, kind: Resource, id: nat) returns (totals: map<Name, Totals>)
    requires Core(s, 0) && id in Loans(s, kind)
    ensures var loan := Loans(s, kind)[id];
      UpdateTotals(s.totals, loan.receiver, if kind == Net then -loan.staked else 0,
        if kind == Cpu then -loan.staked else 0) == Ok(totals)
    ensures forall r: Name ::
      NetWeight(totals, r) - NetWeight(s.totals, r)
      == if kind == Net then SumOf(Loans(s, kind) - {id}, LentTo(r)) - SumOf(s.netLoans, LentTo(r)) else 0
    ensures forall r: Name ::
      CpuWeight(totals, r) - CpuWeight(s.totals, r)
      == if kind == Cpu then SumOf(Loans(s, kind) - {id}, LentTo(r)) - SumOf(s.cpuLoans, LentTo(r)) else 0
  {
    hide SumOf, Core, UpdateTotals, NetWeight, CpuWeight;
    var loan := Loans(s, kind)[id];
    LoanWithinTotals(s, kind, id);
    UpdateTotalsEffect(s.totals, loan.receiver, if kind == Net then -loan.staked else 0,
      if kind == Cpu then -loan.staked else 0);
    totals := UpdateTotals(s.totals, loan.receiver, if kind == Net then -loan.staked else 0,
      if kind == Cpu then -loan.staked else 0).value;
    LoanSumsErase(Loans(s, kind), id);
  }

  lemma RenewKeeps(s: State, kind: Resource, id: nat, pool: Pool, rented: int)
    requires Inv(s, 0) && LoansAvailable(s) && id in Loans(s, kind) && Loans(s, kind)[id].expiration <= s.now
    requires var loan := Loans(s, kind)[id];
      && pool == RemoveLoan(s.pool.value, loan.staked) && rented == BancorOutput(pool.rent, pool.unlent, loan.payment)
      && loan.payment <= loan.balance && loan.payment < rented
    ensures RenewLoan(s.(pool := Some(pool)), kind, id, rented).Ok?
    ensures var s1 := RenewLoan(s.(pool := Some(pool)), kind, id, rented).value; Inv(s1, 0) && Expired(s, s1, kind, id)
  {
    hide SumOf, LockUpInv, BalancesInv, PriceKept, BancorOutput, NamesInv, StakeInv, DelegationsInv, RefundsInv,
         ResourcesInv, RenewLoan, UpdateTotals, NetWeight, CpuWeight;
    var loan := Loans(s, kind)[id];
    LoanWithinTotals(s, kind, id);
    RemoveLoanKeepsPool(s.pool.value, loan.staked);
    NoOpenOrders(s);
    AddLoanKeepsPool(pool, loan.payment, false);
    var pool1 := AddLoan(pool, loan.payment, rented, false);
    PriceTransitive(s.pool.value, pool, pool1);
    var loans := Loans(s, kind)[id := Renewed(loan, rented)];
    LoanSumsStore(Loans(s, kind), id, Renewed(loan, rented));
    var totals := RenewTotals(s, kind, id, Renewed(loan, rented));
    LoanTableKeeps(s, kind, loans, pool1, s.funds, totals, 0, 0);
    RenewOutcome(s.(pool := Some(pool)), kind, id, rented, totals);
  }

  lemma CloseKeeps(s: State, kind: Resource, id: nat, pool: Pool)
    requires Inv(s, 0) && id in Loans(s, kind) && pool == RemoveLoan(s.pool.value, Loans(s, kind)[id].staked)
    ensures CloseLoan(s.(pool := Some(pool)), kind, id).Ok?
    ensures var s1 := CloseLoan(s.(pool := Some(pool)), kind, id).value;
      Inv(s1, 0) && Expired(s, s1, kind, id) && Loans(s1, kind) == Loans(s, kind) - {id}
  {
    hide SumOf, LockUpInv, BalancesInv, PriceKept, BancorOutput, NamesInv, StakeInv, DelegationsInv, RefundsInv,
         ResourcesInv, CloseLoan, UpdateTotals, NetWeight, CpuWeight, LoansAvailable, RemoveLoan, Refunded, FundsInv;
    var loan := Loans(s, kind)[id];
    LoanWithinTotals(s, kind, id);
    RemoveLoanKeepsPool(s.pool.value, loan.staked);
    var loans := Loans(s, kind) - {id};
    LoanSumsErase(Loans(s, kind), id);
    RefundedFunds(s.funds, loan);
    var funds := Refunded(s.funds, loan);
    var totals := CloseTotals(s, kind, id);
    LoanTableKeeps(s, kind, loans, pool, funds, totals, 0, 0);
    CloseOutcome(s.(pool := Some(pool)), kind, id, funds, totals);
  }

  /** Expiring a loan never fails: the checks on the receiver's totals cannot fire, and the
      creator of the loan has a fund row. */
  lemma ExpireLoanKeeps(s: State, kind: Resource, id: nat)
    requires Inv(s, 0) && id in Loans(s, kind) && Loans(s, kind)[id].expiration <= s.now
    ensures ExpireLoan(s, kind, id).Ok?
    ensures Inv(ExpireLoan(s, kind, id).value, 0) && Expired(s, ExpireLoan(s, kind, id).value, kind, id)
  {
    hide Inv, RemoveLoan, BancorOutput, RenewLoan, CloseLoan, Expired;
    var loan := Loans(s, kind)[id];
    assert s.pool.Some? && s.pool.value.rex == RemoveLoan(s.pool.value, loan.staked).rex by {
      LoanHasPool(s, kind, id);
    }
    var pool := RemoveLoan(s.pool.value, loan.staked);
    var rented := BancorOutput(pool.rent, pool.unlent, loan.payment);
    assert LoansAvailable(s.(pool := Some(pool))) == LoansAvailable(s);
    if Renews(s.(pool := Some(pool)), loan, rented) {
      RenewKeeps(s, kind, id, pool, rented);
    } else {
      CloseKeeps(s, kind, id, pool);
    }
  }

  lemma LoanHasPool(s: State, kind: Resource, id: nat)
    requires Inv(s, 0) && id in Loans(s, kind)
    ensures s.pool.Some? && s.pool.value.rex == RemoveLoan(s.pool.value, Loans(s, kind)[id].staked).rex
  {
    hide SumOf;
  }

  // ---------- the loan loops ----------

  /** `q` comes from `p` by steps that never lower the share price and issue no shares for an
      empty pool. */
  ghost predicate PoolRuns(p: Option<Pool>, q: Option<Pool>) {
    p.Some? && q.Some? && PriceKept(p.value, q.value) && (p.value.rex == 0 ==> q.value.rex == 0)
  }

  lemma PoolRunsTransitive(p: Option<Pool>, q: Option<Pool>, r: Option<Pool>)
    requires PoolRuns(p, q) && PoolRuns(q, r) && PoolOk(p.value) && PoolOk(q.value) && PoolOk(r.value)
    ensures PoolRuns(p, r)
  {
    PriceTransitive(p.value, q.value, r.value);
  }

  ghost predicate Unrenewed(before: map<nat, Loan>, after: map<nat, Loan>) {
    forall id | id in after :: id in before && after[id] == before[id]
  }

  /** What running one loan loop leaves alone; without available loans it only closes loans. */
  ghost predicate LoansRun(s: State, s1: State, kind: Resource) {
    && s1 == s.(pool := s1.pool, funds := s1.funds, cpuLoans := s1.cpuLoans, netLoans := s1.netLoans,
        totals := s1.totals)
    && PoolRuns(s.pool, s1.pool) && s1.pool.value.rex == s.pool.value.rex
    && s1.pool.value.namebidProceeds == s.pool.value.namebidProceeds
    && (if kind == Cpu then s1.netLoans == s.netLoans else s1.cpuLoans == s.cpuLoans)
    && (!LoansAvailable(s) ==> Unrenewed(Loans(s, kind), Loans(s1, kind)))
  }

  lemma InvPool(s: State, slack: int)
    requires Core(s, slack) && s.pool.Some?
    ensures PoolOk(s.pool.value) && (s.pool.value.rex == 0 ==> s.pool.value.namebidProceeds == 0)
  {
    hide SumOf;
  }

  lemma ExpiredRuns(s: State, s1: State, kind: Resource, id: nat)
    requires Expired(s, s1, kind, id) && id in Loans(s, kind)
    ensures LoansRun(s, s1, kind) && LoansAvailable(s1) == LoansAvailable(s)
  {
    hide PriceKept;
  }

  lemma LoansRunTransitive(s: State, s1: State, s2: State, kind: Resource)
    requires LoansRun(s, s1, kind) && LoansRun(s1, s2, kind)
    requires PoolOk(s.pool.value) && PoolOk(s1.pool.value) && PoolOk(s2.pool.value)
    ensures LoansRun(s, s2, kind)
  {
    hide PriceKept, PoolOk;
    PoolRunsTransitive(s.pool, s1.pool, s2.pool);
    assert LoansAvailable(s1) == LoansAvailable(s);
  }

  lemma LoansRunReflexive(s: State, kind: Resource)
    requires s.pool.Some?
    ensures LoansRun(s, s, kind)
  {
  }

  /** One turn of the loan loop. */
  lemma RunLoansTurn(s: State, kind: Resource, max: nat, id: nat)
    requires max > 0 && IsLeast(Loans(s, kind).Keys, ByExpiration(Loans(s, kind)), id)
    requires Loans(s, kind)[id].expiration <= s.now
    requires ExpireLoan(s, kind, id).Ok?
    ensures RunLoans(s, kind, max) == RunLoans(ExpireLoan(s, kind, id).value, kind, max - 1)
  {
    hide ExpireLoan;
    assert Least(Loans(s, kind).Keys, ByExpiration(Loans(s, kind))) == id;
  }

  lemma RunLoansStop(s: State, kind: Resource, max: nat, id: nat)
    requires IsLeast(Loans(s, kind).Keys, ByExpiration(Loans(s, kind)), id) && Loans(s, kind)[id].expiration > s.now
    ensures RunLoans(s, kind, max) == Ok(s)
  {
    assert Least(Loans(s, kind).Keys, ByExpiration(Loans(s, kind))) == id;
  }

  lemma RunLoansAborts(s: State, kind: Resource, max: nat, id: nat)
    requires max > 0 && IsLeast(Loans(s, kind).Keys, ByExpiration(Loans(s, kind)), id)
    requires Loans(s, kind)[id].expiration <= s.now
    requires ExpireLoan(s, kind, id).Abort?
    ensures RunLoans(s, kind, max).Abort?
  {
    hide ExpireLoan;
    assert Least(Loans(s, kind).Keys, ByExpiration(Loans(s, kind))) == id;
  }

  lemma RunLoansNone(s: State, kind: Resource, max: nat)
    requires |Loans(s, kind)| == 0 || max == 0
    ensures RunLoans(s, kind, max) == Ok(s)
  {
  }

  lemma RunLoansDone(s: State, kind: Resource, max: nat)
    requires |Loans(s, kind)| == 0
    ensures RunLoans(s, kind, max) == Ok(s) && Loans(s, kind) == map[]
  {
  }

  /** Processing expired loans never fails. */
  lemma {:induction false} RunLoansKeeps(s: State, kind: Resource, max: nat)
    requires Inv(s, 0) && s.pool.Some?
    ensures RunLoans(s, kind, max).Ok?
    ensures var s1 := RunLoans(s, kind, max).value; Inv(s1, 0) && LoansRun(s, s1, kind)
    decreases max
  {
    hide Inv, Core, Expired, LoansRun, ExpireLoan, PoolOk, RunLoans, LoansAvailable;
    var loans := Loans(s, kind);
    LoansRunReflexive(s, kind);
    if |loans| == 0 || max == 0 {
      RunLoansNone(s, kind, max);
    } else {
      assert loans.Keys != {};
      var id := Least(loans.Keys, ByExpiration(loans));
      if loans[id].expiration <= s.now {
        ExpireLoanKeeps(s, kind, id);
        RunLoansTurn(s, kind, max, id);
        var s1 := ExpireLoan(s, kind, id).value;
        ExpiredRuns(s, s1, kind, id);
        RunsPools(s, s1, kind);
        RunLoansKeeps(s1, kind, max - 1);
        var s2 := RunLoans(s1, kind, max - 1).value;
        RunsPools(s1, s2, kind);
        InvPool'(s);
        InvPool'(s1);
        InvPool'(s2);
        LoansRunTransitive(s, s1, s2, kind);
      } else {
        RunLoansStop(s, kind, max, id);
      }
    }
  }

  lemma InvPool'(s: State)
    requires Inv(s, 0) && s.pool.Some?
    ensures PoolOk(s.pool.value)
  {
    hide SumOf, PoolOk;
  }

  lemma RunsPools(s: State, s1: State, kind: Resource)
    requires LoansRun(s, s1, kind)
    ensures s.pool.Some? && s1.pool.Some?
  {
  }

  // ---------- sell orders ----------

  /** A balance is no more than the shares issued. */
  lemma BalanceWithinPool(s: State, owner: Name, slack: int)
    requires Core(s, slack) && owner in s.balances
    ensures s.pool.Some? && 0 <= s.balances[owner].matured <= s.balances[owner].rex <= s.pool.value.rex
  {
    hide SumOf, Due;
    forall n | n in s.balances
      ensures 0 <= s.balances[n].matured <= s.balances[n].rex
    {
      ExposureBounds(s.balances[n], Seconds(s.now), END_OF_DAYS);
    }
    SumBoundsRow(s.balances, Shares, owner);
  }

  /** `rb1` is `rb` after `rex` of its matured shares were redeemed. */
  ghost predicate SoldFrom(rb: RexBalance, rb1: RexBalance, rex: int) {
    rb1 == rb.(voteStake := rb1.voteStake, rex := rb.rex - rex, matured := rb.matured - rex)
  }

  /** The account histories after `owner` sold `rex`. */
  lemma SaleKeepsLockUp(s: State, owner: Name, rex: int, rb1: RexBalance, slack: int)
    requires Core(s, slack) && owner in s.balances && 0 <= rex <= s.balances[owner].matured
    requires SoldFrom(s.balances[owner], rb1, rex)
    ensures LockUpInv(s.log + [Sold(owner, rex, Seconds(s.now))], s.balances[owner := rb1], Seconds(s.now))
  {
    hide SumOf, Due, AccountLocked, RowOk, PoolInv, LoansInv, ResourcesInv;
    var second := Seconds(s.now);
    var e := Sold(owner, rex, second);
    var balances1 := s.balances[owner := rb1];
    forall n: Name
      ensures AccountLocked(s.log + [e], n, Row(balances1, n), second)
    {
      assert AccountLocked(s.log, n, Row(s.balances, n), second);
      if n == owner {
        SoldMatured(s.log, owner, s.balances[owner], rb1, second, rex);
      } else {
        OthersLocked(s.log, e, n, Row(s.balances, n), second);
      }
    }
  }

  /** Filling an order that matured REX covers never fails; it is filled exactly when the pool
      keeps a fifth of what is lent, and its proceeds then leave the pool. */
  lemma FillKeeps(s: State, owner: Name, rex: int, slack: int)
    requires Core(s, slack) && owner in s.balances && 0 < rex <= s.balances[owner].matured
    requires s.pool.Some? && s.pool.value.namebidProceeds == 0
    ensures FillOrder(s, owner, rex).Ok? && Value(s.pool.value, rex).Ok?
    ensures var proceeds := Value(s.pool.value, rex).value;
      FillOrder(s, owner, rex).value.Filled? <==> proceeds <= Available(s.pool.value)
    ensures FillOrder(s, owner, rex).value.Filled? ==>
      var f := FillOrder(s, owner, rex).value; var rb := s.balances[owner];
      && f.proceeds == Value(s.pool.value, rex).value >= 0
      && Core(f.s, slack + f.proceeds)
      && f.s == s.(pool := f.s.pool, balances := f.s.balances, log := s.log + [Sold(owner, rex, Seconds(s.now))])
      && PoolRuns(s.pool, f.s.pool)
      && f.s.pool.value == Redeem(s.pool.value, rex, f.proceeds)
      && owner in f.s.balances && SoldFrom(rb, f.s.balances[owner], rex)
      && f.s.balances == s.balances[owner := f.s.balances[owner]]
  {
    hide SumOf, Due, LockUpInv, PriceKept, ResourcesInv, RowOk, Seconds;
    BalanceWithinPool(s, owner, slack);
    RedeemKeepsPool(s.pool.value, rex);
    var rb := s.balances[owner];
    StakeCoversProceeds(s.pool.value, rex, rb.rex);
    var f := FillOrder(s, owner, rex).value;
    if f.Filled? {
      var rb1 := f.s.balances[owner];
      SaleKeepsLockUp(s, owner, rex, rb1, slack);
      SumStore(s.balances, Shares, owner, rb1);
      SoldRowOk(rb, rb1, rex, Seconds(s.now));
    }
  }

  lemma SoldRowOk(rb: RexBalance, rb1: RexBalance, rex: int, second: nat)
    requires RowOk(rb, second) && 0 <= rex <= rb.matured && rb1.voteStake >= 0
    requires SoldFrom(rb, rb1, rex)
    ensures RowOk(rb1, second)
  {
  }

  /** The vote stake never turns negative: a part is worth no more than the whole. */
  lemma StakeCoversProceeds(p: Pool, rex: int, held: int)
    requires PoolOk(p) && 0 < rex <= held <= p.rex
    ensures Value(p, rex).Ok? && Value(p, held).Ok? && 0 <= Value(p, rex).value <= Value(p, held).value
  {
    MulMono(rex, held, p.lendable);
    FloorMono(rex * p.lendable, held * p.lendable, p.rex);
    FloorShare(rex, p.lendable, p.rex);
  }

  /** What trying queued orders leaves alone. */
  ghost predicate OrdersRun(s: State, s1: State) {
    && s1 == s.(pool := s1.pool, balances := s1.balances, orders := s1.orders, log := s1.log)
    && PoolRuns(s.pool, s1.pool) && s1.pool.value.lent == s.pool.value.lent
    && s1.pool.value.namebidProceeds == s.pool.value.namebidProceeds
    && s1.balances.Keys == s.balances.Keys && s1.orders.Keys == s.orders.Keys
    && (forall n | n in s.orders :: s1.orders[n] == s.orders[n] || (s.orders[n].isOpen && !s1.orders[n].isOpen))
    && s.log <= s1.log
  }

  lemma OrdersRunTransitive(s: State, s1: State, s2: State)
    requires OrdersRun(s, s1) && OrdersRun(s1, s2)
    requires PoolOk(s.pool.value) && PoolOk(s1.pool.value) && PoolOk(s2.pool.value)
    ensures OrdersRun(s, s2)
  {
    hide PriceKept, PoolOk;
    PoolRunsTransitive(s.pool, s1.pool, s2.pool);
  }

  /** The order of `owner` is filled exactly when the pool can pay for it. */
  lemma FillQueuedKeeps(s: State, owner: Name)
    requires Inv(s, 0) && owner in s.orders && s.orders[owner].isOpen
    requires s.pool.Some? && s.pool.value.namebidProceeds == 0
    ensures FillQueued(s, owner).Ok?
    ensures var s1 := FillQueued(s, owner).value;
      && Inv(s1, 0) && OrdersRun(s, s1)
      && (forall n | n in s.orders && n != owner :: s1.orders[n] == s.orders[n])
      && var value := Value(s.pool.value, s.orders[owner].requested);
        value.Ok? && (!s1.orders[owner].isOpen <==> value.value <= Available(s.pool.value))
  {
    hide SumOf, Due, LockUpInv, PriceKept, ResourcesInv, FillOrder, PoolInv, BalancesInv, LoansInv, Value, RowOk,
         PoolOk;
    FillKeeps(s, owner, s.orders[owner].requested, 0);
    var f := FillOrder(s, owner, s.orders[owner].requested).value;
    if f.Filled? {
      var order := s.orders[owner].(proceeds := f.proceeds, stakeChange := f.stakeChange, isOpen := false);
      SumStore(s.orders, Proceeds, owner, order);
    } else {
      PoolRunsReflexive(s.pool);
    }
  }

  lemma PoolRunsReflexive(p: Option<Pool>)
    requires p.Some?
    ensures PoolRuns(p, p)
  {
  }

  /** Working through the sell queue never fails. */
  lemma {:induction false} FillOrdersKeeps(s: State, cursor: Option<Name>, max: nat)
    requires Inv(s, 0) && s.pool.Some? && s.pool.value.namebidProceeds == 0
    ensures FillOrders(s, cursor, max).Ok?
    ensures var s1 := FillOrders(s, cursor, max).value; Inv(s1, 0) && OrdersRun(s, s1)
    decreases max
  {
    hide Inv, FillQueued, PoolOk, NextOrder, PriceKept;
    PoolRunsReflexive(s.pool);
    if max > 0 && cursor.Some? && cursor.value in s.orders && s.orders[cursor.value].isOpen {
      FillQueuedKeeps(s, cursor.value);
      var s1 := FillQueued(s, cursor.value).value;
      FillOrdersKeeps(s1, NextOrder(s.orders, cursor.value), max - 1);
      var s2 := FillOrders(s1, NextOrder(s.orders, cursor.value), max - 1).value;
      InvPool'(s);
      InvPool'(s1);
      InvPool'(s2);
      OrdersRunTransitive(s, s1, s2);
    }
  }

  // ---------- maintenance as a whole ----------

  /** What `runrex` leaves alone, and what it does to loans and orders. */
  ghost predicate RexRun(s: State, s1: State) {
    && s1.now == s.now && s1.delegations == s.delegations && s1.refunds == s.refunds && s1.bids == s.bids
    && s1.bidRefunds == s.bidRefunds
    && PoolRuns(s.pool, s1.pool) && s1.pool.value.namebidProceeds == 0
    && s1.balances.Keys == s.balances.Keys && s1.orders.Keys == s.orders.Keys
    && (forall n | n in s.orders :: s1.orders[n] == s.orders[n] || (s.orders[n].isOpen && !s1.orders[n].isOpen))
    && s.log <= s1.log
    && (!LoansAvailable(s) ==> Unrenewed(s.cpuLoans, s1.cpuLoans) && Unrenewed(s.netLoans, s1.netLoans))
  }

  /** `runrex` never fails and keeps the invariant, whatever it finds. */
  lemma RunRexKeeps(s: State, max: nat)
    requires Inv(s, 0) && s.pool.Some?
    ensures RunRex(s, max).Ok?
    ensures var s1 := RunRex(s, max).value; Inv(s1, 0) && RexRun(s, s1)
  {
    hide Core, OrdersInv, PriceKept, PoolOk, FillOrders, RunLoans, ChannelNamebids;
    ChannelNamebidsKeeps(s);
    var s1 := ChannelNamebids(s).value;
    assert LoansAvailable(s1) == LoansAvailable(s);
    RunLoansKeeps(s1, Cpu, max);
    var s2 := RunLoans(s1, Cpu, max).value;
    assert LoansAvailable(s2) == LoansAvailable(s1);
    RunLoansKeeps(s2, Net, max);
    var s3 := RunLoans(s2, Net, max).value;
    FillOrdersKeeps(s3, FirstOrder(s3.orders), max);
    var s4 := FillOrders(s3, FirstOrder(s3.orders), max).value;
    InvPool'(s);
    InvPool'(s1);
    InvPool'(s2);
    InvPool'(s3);
    InvPool'(s4);
    PoolRunsTransitive(s.pool, s1.pool, s2.pool);
    PoolRunsTransitive(s.pool, s2.pool, s3.pool);
    PoolRunsTransitive(s.pool, s3.pool, s4.pool);
  }
}
