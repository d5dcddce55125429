/** Every action of the exchange and the ledger keeps the invariant. */
module ActionProofs {
  import opened Basics
  import opened Arithmetic
  import opened Tables
  import opened Maturity
  import opened RexPool
  import opened Rex
  import opened RexInvariant
  import opened LockUp
  import opened RexProofs

  // ---------- balances ----------

  /** Rearranging a balance. */
  lemma PutBalanceKeeps(s: State, owner: Name, rb1: RexBalance, slack: int)
    requires Core(s, slack) && owner in s.balances
    requires RowOk(rb1, Seconds(s.now)) && rb1.rex == s.balances[owner].rex
    requires forall x | Seconds(s.now) <= x < RexMaturity(Seconds(s.now)) ::
      Exposure(rb1, x) <= Exposure(s.balances[owner], x)
    ensures Core(PutBalance(s, owner, rb1), slack)
  {
    hide SumOf, Due, AccountLocked, RowOk, LoansInv, ResourcesInv, PoolOk, RexMaturity, NamesInv, Exposure;
    var second := Seconds(s.now);
    SumStore(s.balances, Shares, owner, rb1);
    var balances1 := s.balances[owner := rb1];
    forall n: Name
      ensures AccountLocked(s.log, n, Row(balances1, n), second)
    {
      assert AccountLocked(s.log, n, Row(s.balances, n), second);
      if n == owner {
        Rearranged(s.log, owner, s.balances[owner], rb1, second);
      }
    }
  }

  lemma PutBalanceOrders(s: State, owner: Name, rb1: RexBalance)
    requires OrdersInv(s.orders, s.balances, s.now) && owner in s.balances
    requires owner in s.orders && s.orders[owner].isOpen ==> s.orders[owner].requested <= rb1.matured
    ensures OrdersInv(s.orders, PutBalance(s, owner, rb1).balances, s.now)
  {
  }

  /** `process_rex_maturities`, in any action. */
  lemma ProcessStepKeeps(s: State, owner: Name)
    requires Inv(s, 0) && owner in s.balances
    ensures var s1 := PutBalance(s, owner, Process(s.balances[owner], Seconds(s.now)));
      Inv(s1, 0) && s1.balances[owner].matured >= s.balances[owner].matured
        && s1.balances[owner].rex == s.balances[owner].rex
  {
    hide SumOf, Due, RowOk, PoolInv, LoansInv, ResourcesInv, LockUpInv, Process, RexMaturity, NamesInv, StakeInv;
    var rb, second := s.balances[owner], Seconds(s.now);
    ProcessKeepsRow(rb, second);
    forall x | second <= x < RexMaturity(second)
      ensures Exposure(Process(rb, second), x) <= Exposure(rb, x)
    {
      ProcessMovesDue(rb, second, x);
    }
    PutBalanceKeeps(s, owner, Process(rb, second), 0);
    PutBalanceOrders(s, owner, Process(rb, second));
  }

  /** Setting the vote stake to a current value. */
  lemma VoteStakeKeeps(s: State, owner: Name, stake: int)
    requires Inv(s, 0) && owner in s.balances && stake >= 0
    ensures Inv(PutBalance(s, owner, s.balances[owner].(voteStake := stake)), 0)
  {
    hide SumOf, Due, PoolInv, LoansInv, ResourcesInv, LockUpInv, NamesInv, StakeInv, RexMaturity;
    var rb := s.balances[owner].(voteStake := stake);
    PutBalanceKeeps(s, owner, rb, 0);
    PutBalanceOrders(s, owner, rb);
  }

  // ---------- buying ----------

  /** A balance that receives `rex`: nothing more becomes sellable before a full maturity period. */
  lemma PurchasedRow(rb: RexBalance, second: nat, rex: int, stake: int)
    requires RowOk(rb, second) && ClockOk(second) && rex >= 0 && stake >= 0
    ensures var rb1 := Receive(rb.(voteStake := stake), second, rex);
      && RowOk(rb1, second) && rb1.rex == rb.rex + rex && rb1.matured >= rb.matured
      && (forall x | second <= x < RexMaturity(second) :: Exposure(rb1, x) <= Exposure(rb, x))
  {
    hide Due, Receive, RexMaturity, Daily, Process, PutSavings;
    var rb0 := rb.(voteStake := stake);
    var rb1 := Receive(rb0, second, rex);
    MaturityInRange(second);
    ReceiveKeepsRow(rb0, second, rex, second);
    forall x | second <= x < RexMaturity(second)
      ensures Exposure(rb1, x) <= Exposure(rb, x)
    {
      ReceiveKeepsRow(rb0, second, rex, x);
      assert Exposure(rb0, x) == Exposure(rb, x);
    }
  }

  lemma PurchaseKeepsLockUp(s: State, owner: Name, rex: int, stake: int, slack: int)
    requires Core(s, slack) && rex >= 0 && stake >= 0
    ensures var rb1 := Receive(Row(s.balances, owner).(voteStake := stake), Seconds(s.now), rex);
      && RowOk(rb1, Seconds(s.now)) && rb1.rex == Row(s.balances, owner).rex + rex
      && rb1.matured >= Row(s.balances, owner).matured
      && LockUpInv(s.log + [Bought(owner, rex, Seconds(s.now))], s.balances[owner := rb1], Seconds(s.now))
  {
    hide SumOf, Due, AccountLocked, PoolInv, LoansInv, ResourcesInv, Receive, NamesInv, StakeInv, RexMaturity, RowOk,
         Solvent, Exposure, BalancesInv;
    var second := Seconds(s.now);
    var rb := Row(s.balances, owner);
    RowIsOk(s, owner, slack);
    PurchasedRow(rb, second, rex, stake);
    var rb1 := Receive(rb.(voteStake := stake), second, rex);
    var e := Bought(owner, rex, second);
    var balances1 := s.balances[owner := rb1];
    forall n: Name
      ensures AccountLocked(s.log + [e], n, Row(balances1, n), second)
    {
      assert AccountLocked(s.log, n, Row(s.balances, n), second);
      if n == owner {
        Received(s.log, owner, rb, rb1, second, rex);
      } else {
        OthersLocked(s.log, e, n, Row(s.balances, n), second);
      }
    }
  }

  lemma MaturityInRange(second: nat)
    requires ClockOk(second)
    ensures second < RexMaturity(second) < END_OF_DAYS
  {
  }

  lemma RowIsOk(s: State, owner: Name, slack: int)
    requires Core(s, slack)
    ensures RowOk(Row(s.balances, owner), Seconds(s.now))
  {
    hide SumOf, RowOk, PoolInv, Solvent, LoansInv, ResourcesInv, LockUpInv, NamesInv, StakeInv, Deadlines, Seconds;
    EmptyRowOk(Seconds(s.now));
  }

  lemma EmptyRowOk(second: nat)
    ensures RowOk(RexBalance(0, 0, 0, []), second)
  {
  }

  /** The vote stake of a buyer: the value of all it holds, or the payment for a first purchase. */
  function BuyerStake(s: State, owner: Name, payment: int, pool: Pool, rex: int): int
    requires pool.rex != 0
  {
    if owner in s.balances then ((s.balances[owner].rex + rex) * pool.lendable) / pool.rex else payment
  }

  lemma BuySharesOutcome(s: State, owner: Name, payment: int, pool: Pool, rex: int)
    requires Buy(s.pool, payment) == Ok((pool, rex)) && pool.rex != 0
    ensures BuyShares(s, owner, payment) == Ok(s.(pool := Some(pool),
      balances := s.balances[owner :=
        Receive(Row(s.balances, owner).(voteStake := BuyerStake(s, owner, payment, pool, rex)), Seconds(s.now), rex)],
      log := s.log + [Bought(owner, rex, Seconds(s.now))]))
  {
    hide Buy, Receive, Seconds;
  }

  lemma BuyerStakeNonNegative(s: State, owner: Name, payment: int, pool: Pool, rex: int, slack: int)
    requires Core(s, slack) && payment > 0 && PoolOk(pool) && pool.rex > 0 && rex >= 0
    requires s.pool.Some? ==> pool.rex == s.pool.value.rex + rex
    ensures BuyerStake(s, owner, payment, pool, rex) >= 0
  {
    hide SumOf, Core;
    if owner in s.balances {
      BalanceWithinPool(s, owner, slack);
      FloorShare(s.balances[owner].rex + rex, pool.lendable, pool.rex);
    }
  }

  /** A purchase never fails: neither the check for an empty pool nor the one for a negative
      balance of unlent tokens can fire. */
  lemma BuySharesKeeps(s: State, owner: Name, payment: int, slack: int)
    requires Core(s, slack) && payment > 0
    ensures BuyShares(s, owner, payment).Ok?
    ensures var s1 := BuyShares(s, owner, payment).value;
      && Core(s1, slack - payment) && s1 == s.(pool := s1.pool, balances := s1.balances, log := s1.log)
      && s1.pool.Some? && s1.pool.value.rex > 0 && owner in s1.balances
      && (s.pool.Some? ==> PriceKept(s.pool.value, s1.pool.value)) && s.log <= s1.log
      && (forall n | n in s.balances :: n in s1.balances && s1.balances[n].matured >= s.balances[n].matured)
  {
    hide SumOf, LockUpInv, PriceKept, LoansInv, ResourcesInv, RowOk, Buy, Receive, StakeInv, BuyShares, BuyerStake,
         Seconds;
    assert s.pool.Some? ==> PoolOk(s.pool.value);
    BuyKeepsPool(s.pool, payment);
    var (pool, rex) := Buy(s.pool, payment).value;
    var stake := BuyerStake(s, owner, payment, pool, rex);
    BuyerStakeNonNegative(s, owner, payment, pool, rex, slack);
    PurchaseKeepsLockUp(s, owner, rex, stake, slack);
    var rb1 := Receive(Row(s.balances, owner).(voteStake := stake), Seconds(s.now), rex);
    BuySharesOutcome(s, owner, payment, pool, rex);
    BoughtKeeps(s, owner, payment, pool, rb1, rex, slack);
  }

  lemma BoughtKeeps(s: State, owner: Name, payment: int, pool: Pool, rb1: RexBalance, rex: int, slack: int)
    requires Core(s, slack) && PoolOk(pool) && pool.rex > 0
    requires pool.lendable == Lendable(s.pool) + payment
    requires if s.pool.Some? then
               pool.rex == s.pool.value.rex + rex && pool.lent == s.pool.value.lent
               && pool.namebidProceeds == s.pool.value.namebidProceeds && pool.loanNum == s.pool.value.loanNum
             else pool.rex == rex && pool.lent == 0 && pool.namebidProceeds == 0
    requires RowOk(rb1, Seconds(s.now)) && rb1.rex == Row(s.balances, owner).rex + rex
    requires LockUpInv(s.log + [Bought(owner, rex, Seconds(s.now))], s.balances[owner := rb1], Seconds(s.now))
    ensures Core(s.(pool := Some(pool), balances := s.balances[owner := rb1],
      log := s.log + [Bought(owner, rex, Seconds(s.now))]), slack - payment)
  {
    hide SumOf, Due, LockUpInv, ResourcesInv, RowOk, StakeInv, PoolOk, DelegationsInv, RefundsInv, FundsInv, Deadlines;
    SumStore(s.balances, Shares, owner, rb1);
    if s.pool.None? {
      assert SumOf(s.balances, Shares) == 0 && SumOf(s.cpuLoans, Staked) == 0 && SumOf(s.netLoans, Staked) == 0 by {
        EmptySum(s.balances, Shares);
        EmptySum(s.cpuLoans, Staked);
        EmptySum(s.netLoans, Staked);
      }
    }
  }

  lemma EmptySum<K(!new), V>(m: map<K, V>, f: V -> int)
    requires m == map[]
    ensures SumOf(m, f) == 0
  {
  }

  // ---------- claiming filled orders ----------

  /** Claiming never fails. */
  lemma SettleKeeps(s: State, owner: Name, proceeds: int, slack: int)
    requires Core(s, slack) && proceeds >= 0
    requires owner in s.orders ==>
      s.orders[owner].proceeds >= 0 && (s.orders[owner].isOpen ==> s.orders[owner].proceeds == 0)
    ensures var (s1, inOrder) := SettleAccount(s, owner, proceeds);
      && Core(s1, slack - proceeds) && s1 == s.(orders := s1.orders, funds := s1.funds)
      && (forall n | n in s1.orders :: n in s.orders && s1.orders[n] == s.orders[n])
      && (owner in s1.orders ==> s1.orders[owner].isOpen && inOrder == s1.orders[owner].requested)
      && (owner !in s1.orders ==> inOrder == 0)
      && (forall n | n in s.orders && n != owner :: n in s1.orders)
  {
    hide SumOf, LockUpInv, BalancesInv, ResourcesInv, PoolInv, DelegationsInv, RefundsInv, StakeInv, NamesInv;
    var closed := owner in s.orders && !s.orders[owner].isOpen;
    SumErase(s.orders, Proceeds, owner);
    var toFund := proceeds + (if closed then s.orders[owner].proceeds else 0);
    var orders := if closed then s.orders - {owner} else s.orders;
    OrdersErasedKeeps(s, orders, slack, slack + toFund - proceeds);
    if toFund > 0 {
      ToFundKeeps(s.(orders := orders), owner, toFund, slack + toFund - proceeds);
    }
  }

  lemma OrdersErasedKeeps(s: State, orders: map<Name, Order>, slack: int, slack1: int)
    requires Core(s, slack)
    requires forall n | n in orders :: n in s.orders && orders[n] == s.orders[n]
    requires SumOf(orders, Proceeds) + slack1 == SumOf(s.orders, Proceeds) + slack
    ensures Core(s.(orders := orders), slack1)
  {
    hide SumOf, LockUpInv, BalancesInv, ResourcesInv, PoolInv, DelegationsInv, RefundsInv, StakeInv, NamesInv, LoansInv;
  }

  lemma SettleInv(s: State, owner: Name)
    requires Inv(s, 0)
    ensures var (s1, inOrder) := SettleAccount(s, owner, 0);
      && Inv(s1, 0) && s1 == s.(orders := s1.orders, funds := s1.funds)
      && (owner in s1.orders ==>
          s1.orders[owner].isOpen && inOrder == s1.orders[owner].requested && owner in s1.balances)
      && 0 <= inOrder <= Row(s1.balances, owner).matured
      && (owner !in s1.orders ==> inOrder == 0)
  {
    hide Core, SettleAccount;
    SettleKeeps(s, owner, 0, 0);
    assert 0 <= Row(s.balances, owner).matured by {
      RowIsOk(s, owner, 0);
    }
  }
}
