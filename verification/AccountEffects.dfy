/** What the other actions of the exchange do to funds, tokens, balances and loans: each says whose row
    moves, by how much, and that no other does. */
module AccountEffects {
  import opened Basics
  import opened Arithmetic
  import opened Tables
  import opened Ledger
  import opened Maturity
  import opened RexPool
  import opened Rex
  import opened Staking
  import opened Actions
  import opened RexInvariant
  import opened RexProofs
  import opened ActionProofs
  import opened StakeProofs
  import opened ActionInv
  import opened RexTheorems
  import opened RexHistory
  import opened LoanEffects
  import opened OrderEffects
  import opened StakeEffects

  // ---------- funds ----------

  lemma DepositMoves(s: State, owner: Name, amount: int)
    requires Exec(s, Deposit(owner, amount)).Ok?
    ensures var s1 := Exec(s, Deposit(owner, amount)).value;
      && amount > 0 && Paid(s.tokens, s1.tokens, owner, REX_ACCOUNT, amount) && FundMoved(s, s1, owner, amount)
      && s1 == s.(tokens := s1.tokens, funds := s1.funds)
  {
    hide Transfer;
    PaidBy(s.tokens, owner, REX_ACCOUNT, amount);
  }

  /** A withdrawal claims a filled order first. */
  lemma WithdrawMoves(s: State, owner: Name, amount: int, voteOk: bool)
    requires Inv(s, 0) && Exec(s, Withdraw(owner, amount, voteOk)).Ok?
    ensures var s1 := Exec(s, Withdraw(owner, amount, voteOk)).value;
      && amount > 0 && Paid(s.tokens, s1.tokens, REX_ACCOUNT, owner, amount)
      && FundMoved(s, s1, owner, Unclaimed(s.orders, owner) - amount) && Fund(s1, owner) >= 0
      && OrderClaimed(s.orders, s1.orders, owner)
      && s1 == s.(tokens := s1.tokens, funds := s1.funds, orders := s1.orders)
  {
    hide Inv, Transfer, SettleAccount, Paid, OrderClaimed;
    ClaimsNonNegative(s, owner);
    SettleMoves(s, owner, 0);
    PaidBy(s.tokens, REX_ACCOUNT, owner, amount);
  }

  /** The creator of a loan that still runs pays into its balance. */
  lemma FundLoanMoves(s: State, kind: Resource, owner: Name, id: nat, payment: int)
    requires Exec(s, FundLoan(kind, owner, id, payment)).Ok?
    ensures var s1 := Exec(s, FundLoan(kind, owner, id, payment)).value;
      && payment > 0 && id in Loans(s, kind)
      && Loans(s, kind)[id].from == owner && Loans(s, kind)[id].expiration > s.now
      && FundMoved(s, s1, owner, -payment) && Fund(s1, owner) >= 0
      && var loan := Loans(s, kind)[id];
        s1 == WithLoans(s, kind, Loans(s, kind)[id := loan.(balance := loan.balance + payment)]).(funds := s1.funds)
  {
  }

  /** And takes out again what is in it. */
  lemma DefundLoanMoves(s: State, kind: Resource, owner: Name, id: nat, amount: int)
    requires Exec(s, DefundLoan(kind, owner, id, amount)).Ok?
    ensures var s1 := Exec(s, DefundLoan(kind, owner, id, amount)).value;
      && amount > 0 && id in Loans(s, kind) && Loans(s, kind)[id].from == owner && Loans(s, kind)[id].expiration > s.now
      && Loans(s, kind)[id].balance >= amount && FundMoved(s, s1, owner, amount)
      && var loan := Loans(s, kind)[id];
        s1 == WithLoans(s, kind, Loans(s, kind)[id := loan.(balance := loan.balance - amount)]).(funds := s1.funds)
  {
  }

  // ---------- buying ----------

  /** `rex` shares for `payment`: what the price gives, or ten thousand for each unit of the first
      purchase, on top of what the buyer has, to be sold from the end of the fourth full day on. */
  ghost predicate Purchased(s: State, s1: State, owner: Name, payment: int, rex: int) {
    var second := Seconds(s.now);
    var rb, rb1 := Row(s.balances, owner), Row(s1.balances, owner);
    && s1.pool.Some? && s1.pool.value.rex > 0 && owner in s1.balances
    && s1 == s.(pool := s1.pool, balances := s.balances[owner := rb1], log := s.log + [Bought(owner, rex, second)])
    && rb1.rex == rb.rex + rex && Savings(rb1.maturities) == Savings(rb.maturities)
    && (forall x | second <= x < END_OF_DAYS ::
          Exposure(rb1, x) == Exposure(rb, x) + (if DayStart(second) + 432_000 <= x then rex else 0))
    && (if owner in s.balances
        then Rounded(rb1.voteStake, rb1.rex * s1.pool.value.lendable, s1.pool.value.rex) else rb1.voteStake == payment)
    && (if s.pool.None? || s.pool.value.rex == 0
        then rex == 10_000 * payment && s1.pool.value.rent == 200_000_000
        else Rounded(rex, payment * s.pool.value.rex, s.pool.value.lendable)
             && s1.pool.value.rent == s.pool.value.rent)
    && s1.pool.value.lendable == Lendable(s.pool) + payment
    && s1.pool.value.lent == (if s.pool.Some? then s.pool.value.lent else 0)
    && s1.pool.value.rex == (if s.pool.Some? then s.pool.value.rex else 0) + rex
  }

  lemma PurchaseMoves(s: State, owner: Name, payment: int, slack: int) returns (rex: int)
    requires Core(s, slack) && payment > 0
    ensures BuyShares(s, owner, payment).Ok? && Purchased(s, BuyShares(s, owner, payment).value, owner, payment, rex)
  {
    hide Core, BuyShares, Buy, Receive, Rounded, Exposure, Seconds, DayStart, BuyerStake, RexMaturity, PriceKept;
    if s.pool.Some? {
      InvPool(s, slack);
    }
    BuyKeepsPool(s.pool, payment);
    var (pool, bought) := Buy(s.pool, payment).value;
    rex := bought;
    BuySharesKeeps(s, owner, payment, slack);
    BuySharesOutcome(s, owner, payment, pool, rex);
    var stake := BuyerStake(s, owner, payment, pool, rex);
    BuyerStakeNonNegative(s, owner, payment, pool, rex, slack);
    StakeOfBuyer(s, owner, payment, pool, rex);
    PurchasedExposure(s, owner, rex, stake, slack);
  }

  lemma StakeOfBuyer(s: State, owner: Name, payment: int, pool: Pool, rex: int)
    requires pool.rex > 0
    ensures var stake := BuyerStake(s, owner, payment, pool, rex);
      if owner in s.balances then Rounded(stake, (s.balances[owner].rex + rex) * pool.lendable, pool.rex)
      else stake == payment
  {
    if owner in s.balances {
      Floor((s.balances[owner].rex + rex) * pool.lendable, pool.rex);
    }
  }

  lemma PurchasedExposure(s: State, owner: Name, rex: int, stake: int, slack: int)
    requires Core(s, slack) && rex >= 0 && stake >= 0
    ensures var second := Seconds(s.now); var rb := Row(s.balances, owner);
      var rb1 := Receive(rb.(voteStake := stake), second, rex);
      && rb1.rex == rb.rex + rex && Savings(rb1.maturities) == Savings(rb.maturities) && rb1.voteStake == stake
      && (forall x | second <= x < END_OF_DAYS ::
            Exposure(rb1, x) == Exposure(rb, x) + (if DayStart(second) + 432_000 <= x then rex else 0))
  {
    hide Core, Receive, Exposure, DayStart, RowOk, Seconds;
    RowIsOk(s, owner, slack);
    assert ClockOk(Seconds(s.now)) by { CoreClock(s, slack); }
    ReceivedExposure(Row(s.balances, owner), Seconds(s.now), rex, stake);
  }

  lemma ReceivedExposure(rb: RexBalance, second: nat, rex: int, stake: int)
    requires RowOk(rb, second) && ClockOk(second) && rex >= 0 && stake >= 0
    ensures var rb1 := Receive(rb.(voteStake := stake), second, rex);
      && rb1.rex == rb.rex + rex && Savings(rb1.maturities) == Savings(rb.maturities) && rb1.voteStake == stake
      && (forall x | second <= x < END_OF_DAYS ::
            Exposure(rb1, x) == Exposure(rb, x) + (if DayStart(second) + 432_000 <= x then rex else 0))
  {
    hide Receive, Due, DayStart, Daily;
    var rb0 := rb.(voteStake := stake);
    ReceiveKeepsSavings(rb0, second, rex);
    ReceiveKeepsRow(rb0, second, rex, second);
    forall x | second <= x < END_OF_DAYS
      ensures Exposure(Receive(rb0, second, rex), x)
           == Exposure(rb, x) + (if DayStart(second) + 432_000 <= x then rex else 0)
    {
      ReceiveKeepsRow(rb0, second, rex, x);
    }
  }

  lemma ReceiveKeepsSavings(rb: RexBalance, second: nat, amount: int)
    requires RowOk(rb, second) && amount >= 0
    ensures Savings(Receive(rb, second, amount).maturities) == Savings(rb.maturities)
  {
    hide Refill, Due;
    RefillShape(rb.(rex := rb.rex + amount), second, amount, Savings(rb.maturities));
  }

  /** What follows a purchase: maintenance, and the buyer's filled order is claimed. */
  ghost predicate MaintainedAndClaimed(s1: State, s3: State, owner: Name) {
    RunRex(s1, 2).Ok? &&
    var s2 := RunRex(s1, 2).value;
    && FundMoved(s2, s3, owner, Unclaimed(s2.orders, owner)) && OrderClaimed(s2.orders, s3.orders, owner)
    && s3 == s2.(funds := s3.funds, orders := s3.orders)
  }

  lemma BuyRexMoves(s: State, owner: Name, amount: int, voteOk: bool) returns (s1: State, rex: int)
    requires Inv(s, 0) && Exec(s, BuyRex(owner, amount, voteOk)).Ok?
    ensures var paid := s.(funds := s1.funds);
      && amount > 0 && FundMoved(s, s1, owner, -amount) && Fund(s1, owner) >= 0
      && Purchased(paid, s1, owner, amount, rex)
      && MaintainedAndClaimed(s1, Exec(s, BuyRex(owner, amount, voteOk)).value, owner)
  {
    hide Inv, BuyShares, RunRex, Purchased, SettleAccount, OrderClaimed;
    BuyStages(s, owner, amount, voteOk);
    assert Core(s, 0) by { InvCore(s); }
    FromFundKeeps(s, owner, amount, 0);
    var paid := FromFund(s, owner, amount).value;
    rex := PurchaseMoves(paid, owner, amount, amount);
    s1 := BuyShares(paid, owner, amount).value;
    assert OrdersInv(s.orders, s.balances, s.now) by { OrdersOf(s); }
    ClaimAfterPurchase(paid, owner, amount);
    BoughtOnly(paid, s1, owner, amount, rex);
    PaidFromFund(s, owner, amount);
  }

  lemma OrdersOf(s: State)
    requires Inv(s, 0)
    ensures OrdersInv(s.orders, s.balances, s.now)
  {
    hide Core, OrdersInv;
  }

  lemma PaidFromFund(s: State, owner: Name, amount: int)
    requires FromFund(s, owner, amount).Ok?
    ensures var s1 := FromFund(s, owner, amount).value;
      amount > 0 && FundMoved(s, s1, owner, -amount) && Fund(s1, owner) >= 0 && s1 == s.(funds := s1.funds)
  {
  }

  lemma BoughtOnly(s: State, s1: State, owner: Name, payment: int, rex: int)
    requires Purchased(s, s1, owner, payment, rex)
    ensures s1.funds == s.funds
  {
    hide Rounded, Exposure;
  }

  lemma BuyStages(s: State, owner: Name, amount: int, voteOk: bool)
    requires Exec(s, BuyRex(owner, amount, voteOk)).Ok?
    ensures amount > 0 && FromFund(s, owner, amount).Ok?
    ensures var paid := FromFund(s, owner, amount).value;
      && BuyShares(paid, owner, amount).Ok? && RunRex(BuyShares(paid, owner, amount).value, 2).Ok?
      && Exec(s, BuyRex(owner, amount, voteOk)).value
         == SettleAccount(RunRex(BuyShares(paid, owner, amount).value, 2).value, owner, 0).0
  {
    hide BuyShares, RunRex, SettleAccount, FromFund;
  }

  lemma ClaimAfterPurchase(s: State, owner: Name, payment: int)
    requires Core(s, payment) && payment > 0 && OrdersInv(s.orders, s.balances, s.now)
    requires BuyShares(s, owner, payment).Ok? && RunRex(BuyShares(s, owner, payment).value, 2).Ok?
    ensures var s1 := BuyShares(s, owner, payment).value;
      MaintainedAndClaimed(s1, SettleAccount(RunRex(s1, 2).value, owner, 0).0, owner)
  {
    hide Core, BuyShares, RunRex, SettleAccount, OrdersInv, OrderClaimed, FundMoved;
    BuySharesKeeps(s, owner, payment, payment);
    var s1 := BuyShares(s, owner, payment).value;
    BoughtOrders(s, s1);
    RunRexKeeps(s1, 2);
    ClaimsNonNegative(RunRex(s1, 2).value, owner);
    SettleMoves(RunRex(s1, 2).value, owner, 0);
  }

  /** `unstaketorex`: the same with tokens that come out of a delegation. */
  lemma UnstakeToRexMoves(s: State, owner: Name, receiver: Name, net: int, cpu: int, voteOk: bool)
    returns (s0: State, s1: State, rex: int)
    requires Inv(s, 0) && Exec(s, UnstakeToRex(owner, receiver, net, cpu, voteOk)).Ok?
    ensures net >= 0 && cpu >= 0 && net + cpu > 0
    ensures Delegates(s.delegations, s0.delegations, owner, receiver, -net, -cpu)
    ensures Paid(s.tokens, s0.tokens, STAKE_ACCOUNT, REX_ACCOUNT, net + cpu)
    ensures s0 == s.(delegations := s0.delegations, totals := s0.totals, tokens := s0.tokens)
    ensures Purchased(s0, s1, owner, net + cpu, rex)
    ensures MaintainedAndClaimed(s1, Exec(s, UnstakeToRex(owner, receiver, net, cpu, voteOk)).value, owner)
  {
    hide Inv, BuyShares, RunRex, Purchased, SettleAccount, UnstakeForRex, Delegates, Paid, NetWeight, CpuWeight,
         OrderClaimed, OrdersInv;
    UnstakeStages(s, owner, receiver, net, cpu, voteOk);
    UnstakeForRexKeeps(s, owner, receiver, net, cpu);
    UnstakeMoves(s, owner, receiver, net, cpu);
    s0 := UnstakeForRex(s, owner, receiver, net, cpu).value;
    rex := PurchaseMoves(s0, owner, net + cpu, net + cpu);
    s1 := BuyShares(s0, owner, net + cpu).value;
    assert OrdersInv(s.orders, s.balances, s.now) by { OrdersOf(s); }
    ClaimAfterPurchase(s0, owner, net + cpu);
  }

  lemma UnstakeStages(s: State, owner: Name, receiver: Name, net: int, cpu: int, voteOk: bool)
    requires Exec(s, UnstakeToRex(owner, receiver, net, cpu, voteOk)).Ok?
    ensures net >= 0 && cpu >= 0 && net + cpu > 0 && UnstakeForRex(s, owner, receiver, net, cpu).Ok?
    ensures var s0 := UnstakeForRex(s, owner, receiver, net, cpu).value;
      && BuyShares(s0, owner, net + cpu).Ok? && RunRex(BuyShares(s0, owner, net + cpu).value, 2).Ok?
      && Exec(s, UnstakeToRex(owner, receiver, net, cpu, voteOk)).value
         == SettleAccount(RunRex(BuyShares(s0, owner, net + cpu).value, 2).value, owner, 0).0
  {
    hide BuyShares, RunRex, SettleAccount, UnstakeForRex;
  }

  // ---------- balances ----------

  /** Maintenance has led to `s0`, a filled order of `owner` is claimed, and its balance is `rb1`. */
  ghost predicate Rearranges(s0: State, s1: State, owner: Name, rb1: RexBalance) {
    && owner in s0.balances && s1.balances == s0.balances[owner := rb1] && rb1.rex == s0.balances[owner].rex
    && FundMoved(s0, s1, owner, Unclaimed(s0.orders, owner)) && OrderClaimed(s0.orders, s1.orders, owner)
    && s1 == s0.(funds := s1.funds, orders := s1.orders, balances := s1.balances)
  }

  lemma ClaimRearranges(s0: State, s2: State, s1: State, owner: Name, rb1: RexBalance)
    requires Inv(s0, 0) && owner in s0.balances && s2 == s0.(balances := s2.balances)
    requires s1 == SettleAccount(s2, owner, 0).0.(balances := s0.balances[owner := rb1])
    requires rb1.rex == s0.balances[owner].rex
    ensures Rearranges(s0, s1, owner, rb1)
  {
    hide Inv, SettleAccount, OrderClaimed;
    ClaimsNonNegative(s0, owner);
    SettleMoves(s2, owner, 0);
    forall n: Name
      ensures Fund(s1, n) == Fund(s0, n) + (if n == owner then Unclaimed(s0.orders, owner) else 0)
    {
      assert Fund(SettleAccount(s2, owner, 0).0, n) == Fund(s1, n) && Fund(s2, n) == Fund(s0, n);
    }
  }

  /** `updaterex`: the vote stake is what the balance is worth, and what is due is matured. */
  lemma UpdateRexMoves(s: State, owner: Name, voteOk: bool)
    requires Inv(s, 0) && Exec(s, UpdateRex(owner, voteOk)).Ok?
    ensures RunRex(s, 2).Ok?
    ensures var s0, s1 := RunRex(s, 2).value, Exec(s, UpdateRex(owner, voteOk)).value;
      && owner in s0.balances && owner in s1.balances && s0.pool.Some?
      && var rb, rb1, p := s0.balances[owner], s1.balances[owner], s0.pool.value;
        && Rearranges(s0, s1, owner, rb1)
        && (if p.rex > 0 then Rounded(rb1.voteStake, rb.rex * p.lendable, p.rex) else rb1.voteStake == 0)
        && rb1 == Process(rb, Seconds(s.now)).(voteStake := rb1.voteStake)
  {
    hide Inv, RunRex, SettleAccount, Process, Rounded, OrderClaimed, FundMoved, PoolRuns;
    PoolPresent(s, 2);
    RunRexKeeps(s, 2);
    var s0 := RunRex(s, 2).value;
    var rb, p := s0.balances[owner], s0.pool.value;
    var stake := if p.rex > 0 then (rb.rex * p.lendable) / p.rex else 0;
    if p.rex > 0 {
      Worth(rb.rex * p.lendable, p.rex);
    }
    var s2 := PutBalance(s0, owner, rb.(voteStake := stake));
    ProcessStake(rb, Seconds(s.now), stake);
    var s1 := Exec(s, UpdateRex(owner, voteOk)).value;
    SettledOnly(s2, owner);
    assert s1.balances == s0.balances[owner := s1.balances[owner]];
    ClaimRearranges(s0, s2, s1, owner, s1.balances[owner]);
  }

  lemma SettledOnly(s: State, owner: Name)
    ensures var s1 := SettleAccount(s, owner, 0).0; s1 == s.(funds := s1.funds, orders := s1.orders)
    ensures SettleAccount(s, owner, 0).1 == OpenRex(s.orders, owner)
  {
  }

  lemma Worth(a: int, c: int)
    requires c > 0
    ensures Rounded(a / c, a, c)
  {
    Floor(a, c);
  }

  /** Maturing does not look at the vote stake. */
  lemma {:induction false} ProcessStake(rb: RexBalance, second: nat, stake: int)
    ensures Process(rb.(voteStake := stake), second) == Process(rb, second).(voteStake := stake)
    ensures Process(rb, second).rex == rb.rex && Process(rb.(voteStake := stake), second).rex == rb.rex
    decreases |rb.maturities|
  {
    if rb.maturities != [] && rb.maturities[0].time <= second {
      var rb1 := rb.(matured := rb.matured + rb.maturities[0].amount, maturities := rb.maturities[1..]);
      ProcessStake(rb1, second, stake);
      assert rb1.(voteStake := stake) == rb.(voteStake := stake).(
        matured := rb.matured + rb.maturities[0].amount, maturities := rb.maturities[1..]);
    }
  }

  /** `mvtosavings`: the amount is in savings, and nothing can be sold earlier than before. */
  lemma MvToSavingsMoves(s: State, owner: Name, rex: int, voteOk: bool)
    requires Inv(s, 0) && Exec(s, MvToSavings(owner, rex, voteOk)).Ok?
    ensures RunRex(s, 2).Ok?
    ensures var s0, s1 := RunRex(s, 2).value, Exec(s, MvToSavings(owner, rex, voteOk)).value;
      && rex > 0 && owner in s0.balances && owner in s1.balances
      && var rb, rb1 := s0.balances[owner], s1.balances[owner];
        && Rearranges(s0, s1, owner, rb1) && rb1.voteStake == rb.voteStake
        && rex + OpenRex(s0.orders, owner) + Savings(rb.maturities) <= rb.rex
        && Savings(rb1.maturities) == Savings(rb.maturities) + rex
        && OpenRex(s0.orders, owner) <= rb1.matured
        && (forall x | Seconds(s.now) <= x < END_OF_DAYS :: Exposure(rb1, x) <= Exposure(rb, x))
  {
    hide Inv, RunRex, SettleAccount, MoveToSavings, OrderClaimed, FundMoved, PoolRuns, Exposure, RowOk, Savings;
    PoolPresent(s, 2);
    RunRexKeeps(s, 2);
    var s0 := RunRex(s, 2).value;
    var rb := s0.balances[owner];
    BalanceIsOk(s0, owner);
    SettledOnly(s0, owner);
    SettleInv(s0, owner);
    var inOrder := OpenRex(s0.orders, owner);
    ToSavingsMoves(rb, Seconds(s.now), rex, inOrder);
    var s1 := Exec(s, MvToSavings(owner, rex, voteOk)).value;
    assert s1.balances == s0.balances[owner := MoveToSavings(rb, Seconds(s.now), rex, inOrder).value];
    ClaimRearranges(s0, s0, s1, owner, s1.balances[owner]);
  }

  lemma ToSavingsMoves(rb: RexBalance, second: nat, rex: int, inOrder: int)
    requires RowOk(rb, second) && ClockOk(second) && rex > 0 && 0 <= inOrder <= rb.matured
    requires MoveToSavings(rb, second, rex, inOrder).Ok?
    ensures var rb1 := MoveToSavings(rb, second, rex, inOrder).value;
      && rb1.rex == rb.rex && rb1.voteStake == rb.voteStake && inOrder <= rb1.matured
      && rex + inOrder + Savings(rb.maturities) <= rb.rex && Savings(rb1.maturities) == Savings(rb.maturities) + rex
      && (forall x | second <= x < END_OF_DAYS :: Exposure(rb1, x) <= Exposure(rb, x))
  {
    hide Due, DayStart, Daily, MoveToSavings;
    MoveToSavingsKeepsRow(rb, second, rex, inOrder, second);
    forall x | second <= x < END_OF_DAYS
      ensures Exposure(MoveToSavings(rb, second, rex, inOrder).value, x) <= Exposure(rb, x)
    {
      MoveToSavingsKeepsRow(rb, second, rex, inOrder, x);
    }
  }

  lemma BalanceIsOk(s: State, owner: Name)
    requires Inv(s, 0) && owner in s.balances
    ensures RowOk(s.balances[owner], Seconds(s.now)) && ClockOk(Seconds(s.now))
  {
    hide SumOf, RowOk;
  }

  /** `mvfrsavings`: the amount leaves savings, and can be sold from the end of the fourth full day on. */
  lemma MvFrSavingsMoves(s: State, owner: Name, rex: int, voteOk: bool)
    requires Inv(s, 0) && Exec(s, MvFrSavings(owner, rex, voteOk)).Ok?
    ensures RunRex(s, 2).Ok?
    ensures var s0, s1 := RunRex(s, 2).value, Exec(s, MvFrSavings(owner, rex, voteOk)).value;
      && rex > 0 && owner in s0.balances && owner in s1.balances
      && var rb, rb1, second := s0.balances[owner], s1.balances[owner], Seconds(s.now);
        && Rearranges(s0, s1, owner, rb1) && rb1.voteStake == rb.voteStake
        && Savings(rb1.maturities) == Savings(rb.maturities) - rex >= 0
        && (forall x | second <= x < END_OF_DAYS ::
              Exposure(rb1, x) == Exposure(rb, x) + (if DayStart(second) + 432_000 <= x then rex else 0))
  {
    hide Inv, RunRex, SettleAccount, MoveFromSavings, OrderClaimed, FundMoved, PoolRuns, Exposure, RowOk, Savings,
         DayStart;
    PoolPresent(s, 2);
    RunRexKeeps(s, 2);
    var s0 := RunRex(s, 2).value;
    var rb, second := s0.balances[owner], Seconds(s.now);
    BalanceIsOk(s0, owner);
    FromSavingsMoves(rb, second, rex);
    var s2 := PutBalance(s0, owner, MoveFromSavings(rb, second, rex).value);
    SettledOnly(s2, owner);
    ClaimRearranges(s0, s2, Exec(s, MvFrSavings(owner, rex, voteOk)).value, owner, s2.balances[owner]);
  }

  lemma FromSavingsMoves(rb: RexBalance, second: nat, rex: int)
    requires RowOk(rb, second) && ClockOk(second) && rex > 0 && MoveFromSavings(rb, second, rex).Ok?
    ensures var rb1 := MoveFromSavings(rb, second, rex).value;
      && rb1.rex == rb.rex && rb1.voteStake == rb.voteStake
      && Savings(rb1.maturities) == Savings(rb.maturities) - rex >= 0
      && (forall x | second <= x < END_OF_DAYS ::
            Exposure(rb1, x) == Exposure(rb, x) + (if DayStart(second) + 432_000 <= x then rex else 0))
  {
    hide Due, DayStart, Daily, Refill;
    MoveFromSavingsKeepsRow(rb, second, rex, second);
    forall x | second <= x < END_OF_DAYS
      ensures Exposure(MoveFromSavings(rb, second, rex).value, x)
           == Exposure(rb, x) + (if DayStart(second) + 432_000 <= x then rex else 0)
    {
      MoveFromSavingsKeepsRow(rb, second, rex, x);
    }
  }

  /** `consolidate`: but for savings and an open order, everything can be sold only from the end of the
      fourth full day on. */
  lemma ConsolidateMoves(s: State, owner: Name, voteOk: bool)
    requires Inv(s, 0) && Exec(s, ConsolidateRex(owner, voteOk)).Ok?
    ensures RunRex(s, 2).Ok?
    ensures var s0, s1 := RunRex(s, 2).value, Exec(s, ConsolidateRex(owner, voteOk)).value;
      && owner in s0.balances && owner in s1.balances
      && var rb, rb1, second := s0.balances[owner], s1.balances[owner], Seconds(s.now);
        && Rearranges(s0, s1, owner, rb1) && rb1.voteStake == rb.voteStake
        && Savings(rb1.maturities) == Savings(rb.maturities)
        && (forall x | second <= x < END_OF_DAYS ::
              Exposure(rb1, x) == if x < DayStart(second) + 432_000 then OpenRex(s0.orders, owner)
                                  else rb.rex - Savings(rb.maturities))
  {
    hide Inv, RunRex, SettleAccount, Consolidate, OrderClaimed, FundMoved, PoolRuns, Exposure, RowOk, Savings, DayStart;
    PoolPresent(s, 2);
    RunRexKeeps(s, 2);
    var s0 := RunRex(s, 2).value;
    var rb, second := s0.balances[owner], Seconds(s.now);
    BalanceIsOk(s0, owner);
    SettledOnly(s0, owner);
    SettleInv(s0, owner);
    var inOrder := OpenRex(s0.orders, owner);
    ConsolidatedMoves(rb, second, inOrder);
    var s1 := Exec(s, ConsolidateRex(owner, voteOk)).value;
    assert s1.balances == s0.balances[owner := Consolidate(rb, second, inOrder)];
    ClaimRearranges(s0, s0, s1, owner, s1.balances[owner]);
  }

  lemma ConsolidatedMoves(rb: RexBalance, second: nat, inOrder: int)
    requires RowOk(rb, second) && ClockOk(second) && 0 <= inOrder <= rb.matured
    ensures var rb1 := Consolidate(rb, second, inOrder);
      && rb1.rex == rb.rex && rb1.voteStake == rb.voteStake && Savings(rb1.maturities) == Savings(rb.maturities)
      && (forall x | second <= x < END_OF_DAYS ::
            Exposure(rb1, x) == if x < DayStart(second) + 432_000 then inOrder else rb.rex - Savings(rb.maturities))
  {
    hide Due, DayStart, Daily, Consolidate;
    ConsolidateKeepsRow(rb, second, inOrder, second);
    forall x | second <= x < END_OF_DAYS
      ensures Exposure(Consolidate(rb, second, inOrder), x)
           == if x < DayStart(second) + 432_000 then inOrder else rb.rex - Savings(rb.maturities)
    {
      ConsolidateKeepsRow(rb, second, inOrder, x);
    }
  }

  /** `closerex`: an empty balance goes, and with it the fund if that is empty and no loan is refunded
      into it. */
  lemma CloseRexMoves(s: State, owner: Name, voteOk: bool)
    requires Inv(s, 0) && Exec(s, CloseRex(owner, voteOk)).Ok?
    ensures s.pool.Some? ==> RunRex(s, 2).Ok?
    ensures var s0 := if s.pool.Some? then RunRex(s, 2).value else s; var s1 := Exec(s, CloseRex(owner, voteOk)).value;
      && Row(s0.balances, owner).rex == 0 && s1.balances == s0.balances - {owner}
      && FundMoved(s0, s1, owner, Unclaimed(s0.orders, owner)) && OrderClaimed(s0.orders, s1.orders, owner)
      && (owner in s1.funds <==>
            (owner in s0.funds || Unclaimed(s0.orders, owner) > 0)
            && !(Fund(s1, owner) == 0 && NoLoansOf(s0.cpuLoans, owner) && NoLoansOf(s0.netLoans, owner)))
      && s1 == s0.(funds := s1.funds, orders := s1.orders, balances := s1.balances)
  {
    hide Inv, RunRex, SettleAccount, OrderClaimed, NoLoansOf, RexRun, FundMoved;
    if s.pool.Some? {
      RunRexKeeps(s, 2);
    }
    var s0 := if s.pool.Some? then RunRex(s, 2).value else s;
    ClaimsNonNegative(s0, owner);
    ClosesAfter(s0, owner, Exec(s, CloseRex(owner, voteOk)).value);
  }

  lemma ClosesAfter(s0: State, owner: Name, s1: State)
    requires Unclaimed(s0.orders, owner) >= 0
    requires var s2 := SettleAccount(s0, owner, 0).0;
      var closesFund := NoLoansOf(s2.cpuLoans, owner) && NoLoansOf(s2.netLoans, owner)
                        && owner in s2.funds && s2.funds[owner] == 0;
      && (owner in s2.balances ==> s2.balances[owner].rex == 0)
      && s1 == s2.(funds := if closesFund then s2.funds - {owner} else s2.funds, balances := s2.balances - {owner})
    ensures Row(s0.balances, owner).rex == 0 && s1.balances == s0.balances - {owner}
    ensures FundMoved(s0, s1, owner, Unclaimed(s0.orders, owner)) && OrderClaimed(s0.orders, s1.orders, owner)
    ensures owner in s1.funds <==>
      (owner in s0.funds || Unclaimed(s0.orders, owner) > 0)
      && !(Fund(s1, owner) == 0 && NoLoansOf(s0.cpuLoans, owner) && NoLoansOf(s0.netLoans, owner))
    ensures s1 == s0.(funds := s1.funds, orders := s1.orders, balances := s1.balances)
  {
    hide SettleAccount, OrderClaimed, NoLoansOf;
    SettleMoves(s0, owner, 0);
    FundRow(s0, owner);
  }

  lemma FundRow(s: State, owner: Name)
    requires Unclaimed(s.orders, owner) >= 0
    ensures owner in SettleAccount(s, owner, 0).0.funds <==> owner in s.funds || Unclaimed(s.orders, owner) > 0
  {
  }

  /** `setrex` sets one connector of the loan price, and nothing else. */
  lemma SetRexMoves(s: State, balance: int)
    requires Exec(s, SetRex(balance)).Ok?
    ensures balance > 0 && s.pool.Some?
    ensures Exec(s, SetRex(balance)).value == s.(pool := Some(s.pool.value.(rent := balance)))
  {
  }

  // ---------- fees ----------

  /** A fee reaches the pool of an open exchange, as tokens that are not lent; a closed one takes none. */
  ghost predicate FeeReaches(s: State, s1: State, from: Name, fee: int) {
    if s.pool.Some? && s.pool.value.rex > 0 && fee > 0 then
      var p := s.pool.value;
      && s1.pool == Some(p.(unlent := p.unlent + fee, lendable := p.lendable + fee))
      && Paid(s.tokens, s1.tokens, from, REX_ACCOUNT, fee)
    else s1.pool == s.pool && s1.tokens == s.tokens
  }

  /** What a trade of RAM does here: the receiver's quota, and the fee. */
  lemma RamTradeMoves(s: State, receiver: Name, bytes: nat, fee: nat)
    requires Exec(s, RamTrade(receiver, bytes, fee)).Ok?
    ensures var s1 := Exec(s, RamTrade(receiver, bytes, fee)).value;
      && FeeReaches(s, s1, RAMFEE_ACCOUNT, fee) && s1 == s.(totals := s1.totals, pool := s1.pool, tokens := s1.tokens)
      && receiver in s1.totals && s1.totals[receiver].ram == bytes
      && (forall r: Name :: NetWeight(s1.totals, r) == NetWeight(s.totals, r)
                            && CpuWeight(s1.totals, r) == CpuWeight(s.totals, r))
      && (forall r | r != receiver ::
            (r in s1.totals <==> r in s.totals) && (r in s.totals ==> s1.totals[r] == s.totals[r]))
  {
    hide Transfer;
    if s.pool.Some? && s.pool.value.rex > 0 && fee > 0 {
      PaidBy(s.tokens, RAMFEE_ACCOUNT, REX_ACCOUNT, fee);
    }
  }

  /** The proceeds of closed auctions reach the pool in the same way, once. */
  lemma NamebidsMove(s: State)
    requires Inv(s, 0) && s.pool.Some?
    ensures ChannelNamebids(s).Ok?
    ensures var s1 := ChannelNamebids(s).value; var p := s.pool.value; var proceeds := p.namebidProceeds;
      && s1 == s.(pool := s1.pool, tokens := s1.tokens)
      && s1.pool == Some(p.(unlent := p.unlent + proceeds, lendable := p.lendable + proceeds, namebidProceeds := 0))
      && Paid(s.tokens, s1.tokens, NAMES_ACCOUNT, REX_ACCOUNT, proceeds)
  {
    hide Inv, ChannelNamebids, Paid;
    assert Core(s, 0) by { InvCore(s); }
    ChannelNamebidsKeeps(s);
    assert s.pool.value.namebidProceeds >= 0 && (s.pool.value.namebidProceeds > 0 ==> s.pool.value.rex > 0) by {
      ProceedsOf(s);
    }
    ChannelledTokens(s);
  }

  lemma ProceedsOf(s: State)
    requires Inv(s, 0) && s.pool.Some?
    ensures s.pool.value.namebidProceeds >= 0 && (s.pool.value.namebidProceeds > 0 ==> s.pool.value.rex > 0)
  {
    hide SumOf;
  }

  lemma ChannelledTokens(s: State)
    requires s.pool.Some? && s.pool.value.namebidProceeds >= 0
    requires s.pool.value.namebidProceeds > 0 ==> s.pool.value.rex > 0
    requires ChannelNamebids(s).Ok?
    ensures var s1 := ChannelNamebids(s).value; var p := s.pool.value; var proceeds := p.namebidProceeds;
      && s1 == s.(pool := s1.pool, tokens := s1.tokens)
      && s1.pool == Some(p.(unlent := p.unlent + proceeds, lendable := p.lendable + proceeds, namebidProceeds := 0))
      && Paid(s.tokens, s1.tokens, NAMES_ACCOUNT, REX_ACCOUNT, proceeds)
  {
    hide Transfer;
    if s.pool.value.namebidProceeds > 0 {
      PaidBy(s.tokens, NAMES_ACCOUNT, REX_ACCOUNT, s.pool.value.namebidProceeds);
    }
  }

  // ---------- votes ----------

  /** Every action that changes somebody's vote, or that only voters may take, succeeds only if the voting
      side of it does. */
  lemma VoteDemanded(s: State, a: Action)
    requires Exec(s, a).Ok?
    ensures match a
      case Withdraw(_, _, voteOk) => voteOk
      case BuyRex(_, _, voteOk) => voteOk
      case UnstakeToRex(_, _, _, _, voteOk) => voteOk
      case SellRex(_, _, voteOk) => voteOk
      case UpdateRex(_, voteOk) => voteOk
      case ConsolidateRex(_, voteOk) => voteOk
      case MvToSavings(_, _, voteOk) => voteOk
      case MvFrSavings(_, _, voteOk) => voteOk
      case CloseRex(_, voteOk) => voteOk
      case Delegate(_, _, _, _, _, voteOk) => voteOk
      case Undelegate(_, _, _, _, _, voteOk) => voteOk
      case _ => true
  {
    hide RunRex, SettleAccount, BuyShares, FillOrder, UnstakeForRex, ChangeBandwidth, MoveToSavings, MoveFromSavings,
         FromFund, QueueOrder, SendTokens, Process;
  }
}
