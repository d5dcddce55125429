/** What selling REX does to the seller's order, fund, balance and pool; which queued orders a pass
    serves; and what becomes, over runs, of everything an account asked to sell. */
module OrderEffects {
  import opened Basics
  import opened Arithmetic
  import opened Tables
  import opened Ledger
  import opened Maturity
  import opened RexPool
  import opened Rex
  import opened Staking
  import opened Actions
  import opened RexInvariant
  import opened LockUp
  import opened RexProofs
  import opened ActionProofs
  import opened StakeProofs
  import opened ActionInv
  import opened RexTheorems
  import opened RexHistory
  import opened LoanEffects

  /** What an account has waiting in the queue. */
  function OpenRex(orders: map<Name, Order>, n: Name): int {
    if n in orders && orders[n].isOpen then orders[n].requested else 0
  }

  /** What a filled order of an account has left for it to claim. */
  function Unclaimed(orders: map<Name, Order>, n: Name): int {
    if n in orders && !orders[n].isOpen then orders[n].proceeds else 0
  }

  /** Tokens for `value` can leave the pool: a fifth of what is lent stays behind. */
  predicate Payable(p: Pool, value: int) {
    p.lent < 5 * (p.unlent - value + 1)
  }

  lemma PayableMeans(p: Pool, value: int)
    requires p.lent >= 0
    ensures value <= Available(p) <==> Payable(p, value)
  {
    FifthKeptBack(p);
  }

  /** Only the claimed order of `owner` is gone. */
  ghost predicate OrderClaimed(orders: map<Name, Order>, orders1: map<Name, Order>, owner: Name) {
    orders1 == if Waiting(orders, owner) then orders else orders - {owner}
  }

  predicate Waiting(orders: map<Name, Order>, n: Name) {
    n in orders && orders[n].isOpen
  }

  lemma SettleMoves(s: State, owner: Name, proceeds: int)
    requires proceeds >= 0 && Unclaimed(s.orders, owner) >= 0
    ensures var (s1, inOrder) := SettleAccount(s, owner, proceeds);
      && FundMoved(s, s1, owner, proceeds + Unclaimed(s.orders, owner)) && OrderClaimed(s.orders, s1.orders, owner)
      && inOrder == OpenRex(s.orders, owner) && s1 == s.(orders := s1.orders, funds := s1.funds)
  {
    assert owner !in s.orders ==> s.orders - {owner} == s.orders;
  }

  // ---------- one sale ----------

  /** Sold at once: `value` for `rex` shares leaves the pool for the seller's fund, together with what
      a filled order left; an order that waits stays as it was. */
  ghost predicate SoldNow(s0: State, s1: State, owner: Name, rex: int, value: int)
    requires s0.pool.Some? && owner in s0.balances
  {
    var p, rb := s0.pool.value, s0.balances[owner];
    && value > 0 && s1.pool == Some(p.(rex := p.rex - rex, lendable := p.lendable - value, unlent := p.unlent - value))
    && FundMoved(s0, s1, owner, value + Unclaimed(s0.orders, owner))
    && OrderClaimed(s0.orders, s1.orders, owner)
    && s1.log == s0.log + [Sold(owner, rex, Seconds(s0.now))]
    && owner in s1.balances && s1.balances == s0.balances[owner := s1.balances[owner]]
    && var rb1, ripe := s1.balances[owner], Process(rb, Seconds(s0.now));
      && rb1 == ripe.(rex := rb.rex - rex, matured := ripe.matured - rex, voteStake := rb1.voteStake)
      && Rounded(rb1.voteStake + value, rb.rex * p.lendable, p.rex)
  }

  /** Queued: the seller's order grows by `rex`, in its place in the queue if it had one; nothing else
      moves but what a filled order left. The account `b1` never waits. */
  ghost predicate Queued(s0: State, s1: State, owner: Name, rex: int)
    requires owner in s0.balances
  {
    && owner != 0x3840_0000_0000_0000 && s1.pool == s0.pool && s1.log == s0.log
    && FundMoved(s0, s1, owner, Unclaimed(s0.orders, owner))
    && s1.balances == s0.balances[owner := Process(s0.balances[owner], Seconds(s0.now))]
    && Waiting(s1.orders, owner)
    && s1.orders == s0.orders[owner := s1.orders[owner]]
    && s1.orders[owner].requested == OpenRex(s0.orders, owner) + rex
    && (if Waiting(s0.orders, owner)
        then s1.orders[owner] == s0.orders[owner].(requested := s0.orders[owner].requested + rex)
        else s1.orders[owner] == Order(rex, 0, 0, s0.now, true))
  }

  /** `sellrex`, after maintenance has led to `s0`. */
  lemma SellMoves(s: State, owner: Name, rex: int, voteOk: bool) returns (value: int)
    requires Inv(s, 0) && Exec(s, SellRex(owner, rex, voteOk)).Ok?
    ensures RunRex(s, 2).Ok?
    ensures var s0 := RunRex(s, 2).value; var s1 := Exec(s, SellRex(owner, rex, voteOk)).value;
      && rex > 0 && s0.pool.Some? && s0.pool.value.rex > 0 && owner in s0.balances
      && Rounded(value, rex * s0.pool.value.lendable, s0.pool.value.rex)
      && (if Payable(s0.pool.value, value) then SoldNow(s0, s1, owner, rex, value) else Queued(s0, s1, owner, rex))
      && s1 == s0.(pool := s1.pool, funds := s1.funds, balances := s1.balances, orders := s1.orders, log := s1.log)
  {
    hide Inv, SellMatured, RunRex, Process, PoolRuns, Rounded, Payable, SoldNow, Queued;
    PoolPresent(s, 2);
    RunRexKeeps(s, 2);
    var s0 := RunRex(s, 2).value;
    assert s0.pool.Some? by { PoolRunsSome(s.pool, s0.pool); }
    ProcessStepKeeps(s0, owner);
    NothingDueLeft(s0, owner);
    var s2 := PutBalance(s0, owner, Process(s0.balances[owner], Seconds(s0.now)));
    value := SellMaturedMoves(s2, owner, rex, voteOk);
    var s1 := SellMatured(s2, owner, rex, voteOk).value;
    RipeFirst(s0, s2, s1, owner, rex, value);
  }

  lemma NothingDueLeft(s: State, owner: Name)
    requires Inv(s, 0) && owner in s.balances
    ensures var q := Process(s.balances[owner], Seconds(s.now)).maturities;
      forall i | 0 <= i < |q| :: q[i].time > Seconds(s.now)
  {
    hide SumOf, Process, RowOk;
    ProcessKeepsRow(s.balances[owner], Seconds(s.now));
  }

  /** The two predicates, seen from before the due buckets were processed. */
  lemma RipeFirst(s0: State, s2: State, s1: State, owner: Name, rex: int, value: int)
    requires owner in s0.balances && s0.pool.Some?
    requires s2 == PutBalance(s0, owner, Process(s0.balances[owner], Seconds(s0.now)))
    requires s2.balances[owner].rex == s0.balances[owner].rex
    requires (forall i | 0 <= i < |s2.balances[owner].maturities| ::
                s2.balances[owner].maturities[i].time > Seconds(s0.now))
    ensures SoldNow(s2, s1, owner, rex, value) ==> SoldNow(s0, s1, owner, rex, value)
    ensures Queued(s2, s1, owner, rex) ==> Queued(s0, s1, owner, rex)
  {
    hide Rounded;
    var ripe := s2.balances[owner];
    assert Process(ripe, Seconds(s0.now)) == ripe;
  }

  lemma SellMaturedMoves(s: State, owner: Name, rex: int, voteOk: bool) returns (value: int)
    requires Inv(s, 0) && owner in s.balances && 0 < rex <= s.balances[owner].matured
    requires s.pool.Some? && s.pool.value.namebidProceeds == 0
    requires SellMatured(s, owner, rex, voteOk).Ok?
    requires forall i | 0 <= i < |s.balances[owner].maturities| :: s.balances[owner].maturities[i].time > Seconds(s.now)
    ensures s.pool.value.rex > 0 && Rounded(value, rex * s.pool.value.lendable, s.pool.value.rex)
    ensures var s1 := SellMatured(s, owner, rex, voteOk).value;
      && (if Payable(s.pool.value, value) then SoldNow(s, s1, owner, rex, value) else Queued(s, s1, owner, rex))
      && s1 == s.(pool := s1.pool, funds := s1.funds, balances := s1.balances, orders := s1.orders, log := s1.log)
  {
    hide Inv, Rounded, FillOrder, SettleAccount, Payable, SoldNow, Queued, Available;
    assert Core(s, 0) by { InvCore(s); }
    FillKeeps(s, owner, rex, 0);
    SalePrice(s, owner, rex);
    value := Value(s.pool.value, rex).value;
    assert Process(s.balances[owner], Seconds(s.now)) == s.balances[owner];
    if FillOrder(s, owner, rex).value.Filled? {
      FilledMoves(s, owner, rex, voteOk);
    } else {
      QueuedMoves(s, owner, rex, voteOk);
    }
  }

  lemma FilledMoves(s: State, owner: Name, rex: int, voteOk: bool)
    requires Inv(s, 0) && owner in s.balances && 0 < rex <= s.balances[owner].matured
    requires s.pool.Some? && s.pool.value.namebidProceeds == 0
    requires SellMatured(s, owner, rex, voteOk).Ok? && FillOrder(s, owner, rex).value.Filled?
    requires Process(s.balances[owner], Seconds(s.now)) == s.balances[owner]
    ensures Value(s.pool.value, rex).Ok?
    ensures var s1 := SellMatured(s, owner, rex, voteOk).value;
      && SoldNow(s, s1, owner, rex, Value(s.pool.value, rex).value)
      && s1 == s.(pool := s1.pool, funds := s1.funds, balances := s1.balances, orders := s1.orders, log := s1.log)
  {
    hide Core, Rounded, FillOrder, SettleAccount, PoolOk, PriceKept, Value, Process, Redeem, OrdersInv, Seconds,
         Available, FundMoved, OrderClaimed;
    FillKeeps(s, owner, rex, 0);
    FillStake(s, owner, rex);
    assert Unclaimed(s.orders, owner) >= 0 by { ClaimsNonNegative(s, owner); }
    InvPool(s, 0);
    var f := FillOrder(s, owner, rex).value;
    RedeemMoves(s.pool.value, rex, f.proceeds);
    SettleMoves(f.s, owner, f.proceeds);
    FundsOnly(f.s, s, SettleAccount(f.s, owner, f.proceeds).0, owner, f.proceeds + Unclaimed(s.orders, owner));
  }

  lemma FundsOnly(a: State, b: State, s1: State, owner: Name, amount: int)
    requires a.funds == b.funds && FundMoved(a, s1, owner, amount)
    ensures FundMoved(b, s1, owner, amount)
  {
  }

  lemma QueuedMoves(s: State, owner: Name, rex: int, voteOk: bool)
    requires Inv(s, 0) && owner in s.balances && rex > 0
    requires SellMatured(s, owner, rex, voteOk).Ok? && FillOrder(s, owner, rex).value.Unfilled?
    requires Process(s.balances[owner], Seconds(s.now)) == s.balances[owner]
    ensures var s1 := SellMatured(s, owner, rex, voteOk).value;
      && Queued(s, s1, owner, rex)
      && s1 == s.(pool := s1.pool, funds := s1.funds, balances := s1.balances, orders := s1.orders, log := s1.log)
  {
    hide Inv, FillOrder, SettleAccount, Process, Seconds;
    assert Unclaimed(s.orders, owner) >= 0 by { ClaimsNonNegative(s, owner); }
    SettleMoves(s, owner, 0);
    var s2 := SettleAccount(s, owner, 0).0;
    assert s.balances[owner := s.balances[owner]] == s.balances;
  }

  lemma ClaimsNonNegative(s: State, owner: Name)
    requires Inv(s, 0)
    ensures Unclaimed(s.orders, owner) >= 0
  {
    hide Core;
  }

  lemma RedeemMoves(p: Pool, rex: int, value: int)
    requires PoolOk(p)
    ensures Redeem(p, rex, value) == p.(rex := p.rex - rex, lendable := p.lendable - value, unlent := p.unlent - value)
  {
  }

  /** The price of a sale. */
  lemma SalePrice(s: State, owner: Name, rex: int)
    requires Inv(s, 0) && owner in s.balances && 0 < rex <= s.balances[owner].matured && s.pool.Some?
    ensures s.pool.value.rex > 0 && Value(s.pool.value, rex).Ok? && Value(s.pool.value, rex).value >= 0
    ensures var value := Value(s.pool.value, rex).value;
      && Rounded(value, rex * s.pool.value.lendable, s.pool.value.rex)
      && (value <= Available(s.pool.value) <==> Payable(s.pool.value, value))
  {
    hide Core, Rounded, Payable, PoolOk, Value, OrdersInv;
    BalanceWithinPool(s, owner, 0);
    InvPool(s, 0);
    PoolPrice(s.pool.value, rex);
  }

  lemma PoolPrice(p: Pool, rex: int)
    requires PoolOk(p) && 0 < rex <= p.rex
    ensures Value(p, rex).Ok? && Value(p, rex).value >= 0
    ensures Rounded(Value(p, rex).value, rex * p.lendable, p.rex)
    ensures Value(p, rex).value <= Available(p) <==> Payable(p, Value(p, rex).value)
  {
    hide Rounded, Payable;
    RedeemKeepsPool(p, rex);
    ValueRounds(p, rex);
    PayableMeans(p, Value(p, rex).value);
  }

  /** The vote stake that a sale leaves is what the whole balance was worth less what was paid. */
  lemma FillStake(s: State, owner: Name, rex: int)
    requires Inv(s, 0) && owner in s.balances && 0 < rex <= s.balances[owner].matured && s.pool.Some?
    requires FillOrder(s, owner, rex).Ok? && FillOrder(s, owner, rex).value.Filled?
    ensures var f := FillOrder(s, owner, rex).value;
      && owner in f.s.balances
      && Rounded(f.s.balances[owner].voteStake + f.proceeds, s.balances[owner].rex * s.pool.value.lendable,
           s.pool.value.rex)
      && f.stakeChange == f.s.balances[owner].voteStake - s.balances[owner].voteStake
  {
    hide Core, Rounded, Value, OrdersInv, PoolOk;
    BalanceWithinPool(s, owner, 0);
    InvPool(s, 0);
    PoolPrice(s.pool.value, s.balances[owner].rex);
  }

  /** A queued order that is filled keeps, for its owner to claim, what it was worth and what its owner's
      vote stake changed by. */
  lemma FilledOrder(s: State, owner: Name)
    requires Inv(s, 0) && owner in s.orders && s.orders[owner].isOpen
    requires s.pool.Some? && s.pool.value.namebidProceeds == 0
    ensures FillQueued(s, owner).Ok?
    ensures var s1 := FillQueued(s, owner).value;
      && owner in s.balances && owner in s1.balances && owner in s1.orders
      && s1.orders == s.orders[owner := s1.orders[owner]]
      && var order, order1 := s.orders[owner], s1.orders[owner];
        if order1.isOpen then s1 == s
        else
          && Rounded(order1.proceeds, order.requested * s.pool.value.lendable, s.pool.value.rex)
          && order1 == order.(
               isOpen := false, proceeds := order1.proceeds,
               stakeChange := s1.balances[owner].voteStake - s.balances[owner].voteStake)
          && s1.balances[owner].rex == s.balances[owner].rex - order.requested
          && s1.log == s.log + [Sold(owner, order.requested, Seconds(s.now))]
          && s1.pool.Some? && s1.pool.value.lendable == s.pool.value.lendable - order1.proceeds
  {
    hide Core, OrdersInv, FillOrder, Seconds, PoolRuns, Value, Available, PoolOk, Rounded, PriceKept;
    OpenCovered(s, owner);
    FillKeeps(s, owner, s.orders[owner].requested, 0);
    SalePrice(s, owner, s.orders[owner].requested);
    if FillOrder(s, owner, s.orders[owner].requested).value.Filled? {
      FillStake(s, owner, s.orders[owner].requested);
      PoolRunsSome(s.pool, FillOrder(s, owner, s.orders[owner].requested).value.s.pool);
    } else {
      assert s.orders[owner := s.orders[owner]] == s.orders;
    }
  }

  // ---------- everything an account asked to sell ----------

  /** What `n` sold, at once or from the queue, and what it has waiting. */
  function SoldOrWaiting(s: State, n: Name): int {
    SoldBy(s.log, n, END_OF_DAYS) + OpenRex(s.orders, n)
  }

  /** Filling an order turns what waits into what is sold. */
  lemma FillQueuedAccount(s: State, owner: Name, n: Name)
    requires Inv(s, 0) && owner in s.orders && s.orders[owner].isOpen
    requires s.pool.Some? && s.pool.value.namebidProceeds == 0
    ensures FillQueued(s, owner).Ok? && SoldOrWaiting(FillQueued(s, owner).value, n) == SoldOrWaiting(s, n)
  {
    hide Inv, FillQueued, SoldOrWaiting, Seconds, Rounded;
    FilledOrder(s, owner);
    var s1 := FillQueued(s, owner).value;
    if !s1.orders[owner].isOpen {
      assert Seconds(s.now) <= END_OF_DAYS by { ClockBound(s); }
      SoldFromQueue(s, s1, owner, n);
    }
  }

  lemma SoldFromQueue(s: State, s1: State, owner: Name, n: Name)
    requires owner in s.orders && s.orders[owner].isOpen && owner in s1.orders && !s1.orders[owner].isOpen
    requires s1.orders == s.orders[owner := s1.orders[owner]] && Seconds(s.now) <= END_OF_DAYS
    requires s1.log == s.log + [Sold(owner, s.orders[owner].requested, Seconds(s.now))]
    ensures SoldOrWaiting(s1, n) == SoldOrWaiting(s, n)
  {
    hide SoldBy, Seconds;
    Appended(s.log, Sold(owner, s.orders[owner].requested, Seconds(s.now)), n, END_OF_DAYS);
  }

  lemma OpenCovered(s: State, owner: Name)
    requires Inv(s, 0) && owner in s.orders && s.orders[owner].isOpen
    ensures owner in s.balances && 0 < s.orders[owner].requested <= s.balances[owner].matured
  {
    hide Core;
  }

  lemma ClockBound(s: State)
    requires Inv(s, 0)
    ensures Seconds(s.now) <= END_OF_DAYS
  {
    hide SumOf;
  }

  lemma {:induction false} FillOrdersAccount(s: State, cursor: Option<Name>, max: nat, n: Name)
    requires Inv(s, 0) && s.pool.Some? && s.pool.value.namebidProceeds == 0
    ensures FillOrders(s, cursor, max).Ok? && SoldOrWaiting(FillOrders(s, cursor, max).value, n) == SoldOrWaiting(s, n)
    decreases max
  {
    hide Inv, FillQueued, PoolOk, NextOrder, PriceKept, SoldOrWaiting;
    if max > 0 && cursor.Some? && cursor.value in s.orders && s.orders[cursor.value].isOpen {
      FillQueuedKeeps(s, cursor.value);
      FillQueuedAccount(s, cursor.value, n);
      FillOrdersAccount(FillQueued(s, cursor.value).value, NextOrder(s.orders, cursor.value), max - 1, n);
    }
  }

  /** Maintenance changes nothing in the account of what was asked for. */
  lemma RunRexAccount(s: State, max: nat, n: Name)
    requires Inv(s, 0) && s.pool.Some?
    ensures RunRex(s, max).Ok? && SoldOrWaiting(RunRex(s, max).value, n) == SoldOrWaiting(s, n)
  {
    hide Core, OrdersInv, PriceKept, PoolOk, FillOrders, RunLoans, ChannelNamebids, SoldOrWaiting, PoolRuns,
         LoansAvailable, Unrenewed;
    ChannelNamebidsKeeps(s);
    var s1 := ChannelNamebids(s).value;
    RunLoansKeeps(s1, Cpu, max);
    var s2 := RunLoans(s1, Cpu, max).value;
    assert s2.pool.Some? by { RunsPools(s1, s2, Cpu); }
    RunLoansKeeps(s2, Net, max);
    var s3 := RunLoans(s2, Net, max).value;
    assert s3.pool.Some? by { RunsPools(s2, s3, Net); }
    FillOrdersAccount(s3, FirstOrder(s3.orders), max, n);
    SameAccount(s, s1, n);
    SameAccount(s1, s2, n);
    SameAccount(s2, s3, n);
  }

  lemma SameAccount(s: State, s1: State, n: Name)
    requires s1.log == s.log && s1.orders == s.orders
    ensures SoldOrWaiting(s1, n) == SoldOrWaiting(s, n)
  {
  }

  lemma SettleAccountSame(s: State, owner: Name, n: Name)
    requires Unclaimed(s.orders, owner) >= 0
    ensures SoldOrWaiting(SettleAccount(s, owner, 0).0, n) == SoldOrWaiting(s, n)
  {
    hide SoldBy;
    SettleMoves(s, owner, 0);
  }

  lemma SettledAfter(s: State, s1: State, owner: Name, n: Name)
    requires Inv(s, 0) && s1.orders == s.orders && s1.log == s.log
    ensures SoldOrWaiting(SettleAccount(s1, owner, 0).0, n) == SoldOrWaiting(s, n)
  {
    hide Inv, SoldBy;
    ClaimsNonNegative(s, owner);
    SettleAccountSame(s1, owner, n);
  }

  /** Buying appends to what was received, not to what was sold. */
  lemma BoughtAccount(s: State, owner: Name, payment: int, slack: int, n: Name)
    requires Core(s, slack) && payment > 0
    ensures BuyShares(s, owner, payment).Ok?
    ensures SoldOrWaiting(BuyShares(s, owner, payment).value, n) == SoldOrWaiting(s, n)
  {
    hide Core, SoldBy, BuyerStake, Buy, Receive, Seconds;
    BuySharesKeeps(s, owner, payment, slack);
    var s1 := BuyShares(s, owner, payment).value;
    var e := s1.log[|s1.log| - 1];
    Appended(s.log, e, n, END_OF_DAYS);
  }

  lemma PurchaseAccount(s: State, s1: State, owner: Name, payment: int, n: Name)
    requires Core(s1, payment) && payment > 0 && OrdersInv(s1.orders, s1.balances, s1.now)
    requires s1.orders == s.orders && s1.log == s.log
    requires BuyShares(s1, owner, payment).Ok? && RunRex(BuyShares(s1, owner, payment).value, 2).Ok?
    ensures var s3 := RunRex(BuyShares(s1, owner, payment).value, 2).value;
      SoldOrWaiting(SettleAccount(s3, owner, 0).0, n) == SoldOrWaiting(s, n)
  {
    hide Core, OrdersInv, BuyShares, RunRex, SettleAccount, SoldOrWaiting;
    SameAccount(s, s1, n);
    BoughtAccount(s1, owner, payment, payment, n);
    BuySharesKeeps(s1, owner, payment, payment);
    var s2 := BuyShares(s1, owner, payment).value;
    BoughtOrders(s1, s2);
    RunRexAccount(s2, 2, n);
    RunRexKeeps(s2, 2);
    SettledAfter(RunRex(s2, 2).value, RunRex(s2, 2).value, owner, n);
  }

  lemma BuyRexAccount(s: State, owner: Name, amount: int, voteOk: bool, n: Name)
    requires Inv(s, 0) && ExecBuyRex(s, owner, amount, voteOk).Ok?
    ensures SoldOrWaiting(ExecBuyRex(s, owner, amount, voteOk).value, n) == SoldOrWaiting(s, n)
  {
    hide Core, OrdersInv, BuyShares, RunRex, SettleAccount, SoldOrWaiting;
    FromFundKeeps(s, owner, amount, 0);
    PurchaseAccount(s, FromFund(s, owner, amount).value, owner, amount, n);
  }

  lemma UnstakeAccount(s: State, owner: Name, receiver: Name, net: int, cpu: int, voteOk: bool, n: Name)
    requires Inv(s, 0) && ExecUnstakeToRex(s, owner, receiver, net, cpu, voteOk).Ok?
    ensures SoldOrWaiting(ExecUnstakeToRex(s, owner, receiver, net, cpu, voteOk).value, n) == SoldOrWaiting(s, n)
  {
    hide Core, OrdersInv, BuyShares, RunRex, SettleAccount, SoldOrWaiting, UnstakeForRex;
    UnstakeForRexKeeps(s, owner, receiver, net, cpu);
    PurchaseAccount(s, UnstakeForRex(s, owner, receiver, net, cpu).value, owner, net + cpu, n);
  }

  lemma SellAccount(s: State, owner: Name, rex: int, voteOk: bool, n: Name)
    requires Inv(s, 0) && Exec(s, SellRex(owner, rex, voteOk)).Ok?
    ensures SoldOrWaiting(Exec(s, SellRex(owner, rex, voteOk)).value, n)
         == SoldOrWaiting(s, n) + (if n == owner then rex else 0)
  {
    hide Inv, Exec, RunRex, SoldBy, Rounded, Payable, Process, Seconds, FundMoved;
    var value := SellMoves(s, owner, rex, voteOk);
    assert s.pool.Some? by { PoolPresent(s, 2); }
    RunRexAccount(s, 2, n);
    RunRexKeeps(s, 2);
    var s0 := RunRex(s, 2).value;
    assert Seconds(s0.now) <= END_OF_DAYS by { ClockBound(s0); }
    Appended(s0.log, Sold(owner, rex, Seconds(s0.now)), n, END_OF_DAYS);
  }

  lemma MaintainedAccount(s: State, a: Action, n: Name)
    requires Inv(s, 0) && Exec(s, a).Ok?
    requires a.UpdateRex? || a.ConsolidateRex? || a.MvToSavings? || a.MvFrSavings? || a.CloseRex?
    ensures SoldOrWaiting(Exec(s, a).value, n) == SoldOrWaiting(s, n)
  {
    hide Inv, RunRex, SettleAccount, Consolidate, MoveToSavings, MoveFromSavings, Process, NoLoansOf, SoldOrWaiting,
         Seconds, RexRun;
    if s.pool.Some? {
      RunRexAccount(s, 2, n);
      RunRexKeeps(s, 2);
      MaintainedSteps(s, RunRex(s, 2).value, a, n);
    } else if a.CloseRex? {
      SettledAfter(s, s, a.owner, n);
      SameAccount(SettleAccount(s, a.owner, 0).0, Exec(s, a).value, n);
    } else {
      PoolPresent(s, 2);
      assert false;
    }
  }

  lemma MaintainedSteps(s: State, s1: State, a: Action, n: Name)
    requires s.pool.Some? && RunRex(s, 2) == Ok(s1) && Inv(s1, 0) && Exec(s, a).Ok?
    requires a.UpdateRex? || a.ConsolidateRex? || a.MvToSavings? || a.MvFrSavings? || a.CloseRex?
    ensures SoldOrWaiting(Exec(s, a).value, n) == SoldOrWaiting(s1, n)
  {
    hide Inv, RunRex, SettleAccount, Consolidate, MoveToSavings, MoveFromSavings, Process, NoLoansOf, SoldOrWaiting,
         Seconds;
    var s2 := SettledState(s, s1, a);
    SettledAfter(s1, s2, a.owner, n);
    SameAccount(SettleAccount(s2, a.owner, 0).0, Exec(s, a).value, n);
  }

  /** The state in which such an action settles the account, which orders and history do not notice. */
  lemma SettledState(s: State, s1: State, a: Action) returns (s2: State)
    requires RunRex(s, 2) == Ok(s1) && s.pool.Some? && Exec(s, a).Ok?
    requires a.UpdateRex? || a.ConsolidateRex? || a.MvToSavings? || a.MvFrSavings? || a.CloseRex?
    ensures Settles(s1, s2, Exec(s, a).value, a.owner)
  {
    hide RunRex, Settles, ExecUpdateRex, ExecConsolidate, ExecMvToSavings, ExecMvFrSavings, ExecCloseRex;
    match a
    case UpdateRex(owner, voteOk) => s2 := UpdateSettles(s, s1, owner, voteOk);
    case MvFrSavings(owner, rex, voteOk) => s2 := MvFrSettles(s, s1, owner, rex, voteOk);
    case ConsolidateRex(owner, voteOk) =>
      ConsolidateSettles(s, s1, owner, voteOk);
      s2 := s1;
    case MvToSavings(owner, rex, voteOk) =>
      MvToSettles(s, s1, owner, rex, voteOk);
      s2 := s1;
    case CloseRex(owner, voteOk) =>
      CloseSettles(s, s1, owner, voteOk);
      s2 := s1;
  }

  /** From `s1`, perhaps with other balances, a filled order of `owner` was claimed; after that only balances
      and funds changed. */
  ghost predicate Settles(s1: State, s2: State, r: State, owner: Name) {
    && s2 == s1.(balances := s2.balances)
    && r == SettleAccount(s2, owner, 0).0.(balances := r.balances, funds := r.funds)
  }

  lemma UpdateSettles(s: State, s1: State, owner: Name, voteOk: bool) returns (s2: State)
    requires RunRex(s, 2) == Ok(s1) && ExecUpdateRex(s, owner, voteOk).Ok?
    ensures Settles(s1, s2, ExecUpdateRex(s, owner, voteOk).value, owner)
  {
    hide RunRex, SettleAccount, Process, Seconds;
    var rb := s1.balances[owner];
    var stake := if s1.pool.value.rex > 0 then (rb.rex * s1.pool.value.lendable) / s1.pool.value.rex else 0;
    s2 := PutBalance(s1, owner, rb.(voteStake := stake));
  }

  lemma MvFrSettles(s: State, s1: State, owner: Name, rex: int, voteOk: bool) returns (s2: State)
    requires RunRex(s, 2) == Ok(s1) && ExecMvFrSavings(s, owner, rex, voteOk).Ok?
    ensures Settles(s1, s2, ExecMvFrSavings(s, owner, rex, voteOk).value, owner)
  {
    hide RunRex, SettleAccount, MoveFromSavings, Seconds;
    s2 := PutBalance(s1, owner, MoveFromSavings(s1.balances[owner], Seconds(s1.now), rex).value);
  }

  lemma ConsolidateSettles(s: State, s1: State, owner: Name, voteOk: bool)
    requires RunRex(s, 2) == Ok(s1) && ExecConsolidate(s, owner, voteOk).Ok?
    ensures Settles(s1, s1, ExecConsolidate(s, owner, voteOk).value, owner)
  {
    hide RunRex, SettleAccount, Consolidate, Seconds;
  }

  lemma MvToSettles(s: State, s1: State, owner: Name, rex: int, voteOk: bool)
    requires RunRex(s, 2) == Ok(s1) && ExecMvToSavings(s, owner, rex, voteOk).Ok?
    ensures Settles(s1, s1, ExecMvToSavings(s, owner, rex, voteOk).value, owner)
  {
    hide RunRex, SettleAccount, MoveToSavings, Seconds;
  }

  lemma CloseSettles(s: State, s1: State, owner: Name, voteOk: bool)
    requires RunRex(s, 2) == Ok(s1) && s.pool.Some? && ExecCloseRex(s, owner, voteOk).Ok?
    ensures Settles(s1, s1, ExecCloseRex(s, owner, voteOk).value, owner)
  {
    hide RunRex, SettleAccount, NoLoansOf, Settles;
    var s2 := SettleAccount(s1, owner, 0).0;
    var closesFund := NoLoansOf(s2.cpuLoans, owner) && NoLoansOf(s2.netLoans, owner)
                      && owner in s2.funds && s2.funds[owner] == 0;
    var funds := if closesFund then s2.funds - {owner} else s2.funds;
    assert ExecCloseRex(s, owner, voteOk).value == s2.(funds := funds, balances := s2.balances - {owner});
    ClosedSettles(s1, ExecCloseRex(s, owner, voteOk).value, owner);
  }

  lemma ClosedSettles(s1: State, r: State, owner: Name)
    requires r == SettleAccount(s1, owner, 0).0.(funds := r.funds, balances := r.balances)
    ensures Settles(s1, s1, r, owner)
  {
    hide SettleAccount;
  }

  /** Actions that touch neither orders nor history, and but for `refund` no refund. */
  lemma StillAccount(s: State, a: Action)
    requires Exec(s, a).Ok?
    requires a.Tick? || a.Deposit? || a.SetRex? || a.Refunding? || a.VoteProducer? || a.BidName? || a.BidRefund?
             || a.AuctionClose? || a.TransferTokens? || a.RamTrade? || a.FundLoan? || a.DefundLoan?
    ensures Exec(s, a).value.orders == s.orders && Exec(s, a).value.log == s.log
    ensures !a.Refunding? ==> Exec(s, a).value.refunds == s.refunds
  {
    if a.BidName? || a.AuctionClose? || a.BidRefund? || a.Refunding? {
      LedgerStill(s, a);
    } else {
      FundsStill(s, a);
    }
  }

  lemma LedgerStill(s: State, a: Action)
    requires Exec(s, a).Ok? && (a.BidName? || a.AuctionClose? || a.BidRefund? || a.Refunding?)
    ensures Exec(s, a).value.orders == s.orders && Exec(s, a).value.log == s.log
    ensures !a.Refunding? ==> Exec(s, a).value.refunds == s.refunds
  {
    hide Bid, RefundBid, CloseAuction, ClaimRefund;
    match a
    case BidName(owner, newname, bid, nameOk) => BidStill(s, owner, newname, bid);
    case BidRefund(owner, newname) => BidRefundStill(s, owner, newname);
    case AuctionClose(due) => AuctionStill(s, due);
    case Refunding(owner) => ClaimStill(s, owner);
  }

  lemma BidStill(s: State, bidder: Name, newname: Name, bid: int)
    requires Bid(s, bidder, newname, bid).Ok?
    ensures var s1 := Bid(s, bidder, newname, bid).value;
      s1.orders == s.orders && s1.log == s.log && s1.refunds == s.refunds
  {
    hide Transfer;
  }

  lemma BidRefundStill(s: State, bidder: Name, newname: Name)
    requires RefundBid(s, bidder, newname).Ok?
    ensures var s1 := RefundBid(s, bidder, newname).value;
      s1.orders == s.orders && s1.log == s.log && s1.refunds == s.refunds
  {
    hide Transfer;
  }

  lemma AuctionStill(s: State, due: bool)
    ensures var s1 := CloseAuction(s, due); s1.orders == s.orders && s1.log == s.log && s1.refunds == s.refunds
  {
    hide Least;
  }

  lemma ClaimStill(s: State, owner: Name)
    requires ClaimRefund(s, owner).Ok?
    ensures ClaimRefund(s, owner).value.orders == s.orders && ClaimRefund(s, owner).value.log == s.log
  {
    hide Transfer;
  }

  lemma FundsStill(s: State, a: Action)
    requires Exec(s, a).Ok?
    requires a.Tick? || a.Deposit? || a.SetRex? || a.VoteProducer? || a.TransferTokens? || a.RamTrade? || a.FundLoan?
             || a.DefundLoan?
    ensures Exec(s, a).value.orders == s.orders && Exec(s, a).value.log == s.log
    ensures !a.Refunding? ==> Exec(s, a).value.refunds == s.refunds
  {
    hide SyncVoteStake, ExecRamTrade, ExecDeposit, ExecFundLoan, ExecDefundLoan, ExecSetRex, SendTokens, Seconds;
    match a
    case VoteProducer(owner) => SyncStill(s, owner);
    case RamTrade(receiver, bytes, fee) => RamStill(s, receiver, bytes, fee);
    case Deposit(owner, amount) => DepositStill(s, owner, amount);
    case TransferTokens(owner, to, quantity) => SendStill(s, owner, to, quantity);
    case FundLoan(kind, owner, id, payment) => LoanFundStill(s, kind, owner, id, payment);
    case DefundLoan(kind, owner, id, amount) => LoanFundStill(s, kind, owner, id, amount);
    case SetRex(balance) => SetRexStill(s, balance);
    case Tick(_) =>
  }

  lemma SyncStill(s: State, owner: Name)
    requires SyncVoteStake(s, owner).Ok?
    ensures SyncVoteStake(s, owner).value.orders == s.orders && SyncVoteStake(s, owner).value.log == s.log
    ensures SyncVoteStake(s, owner).value.refunds == s.refunds
  {
    hide Value;
  }

  lemma SendStill(s: State, from: Name, to: Name, quantity: int)
    requires SendTokens(s, from, to, quantity).Ok?
    ensures var s1 := SendTokens(s, from, to, quantity).value;
      s1.orders == s.orders && s1.log == s.log && s1.refunds == s.refunds
  {
    hide Transfer;
  }

  lemma RamStill(s: State, receiver: Name, bytes: nat, fee: nat)
    requires ExecRamTrade(s, receiver, bytes, fee).Ok?
    ensures var s1 := ExecRamTrade(s, receiver, bytes, fee).value;
      s1.orders == s.orders && s1.log == s.log && s1.refunds == s.refunds
  {
    hide ChannelToRex;
    var row := if receiver in s.totals then s.totals[receiver] else Totals(0, 0, 0);
    var s0 := s.(totals := s.totals[receiver := row.(ram := bytes)]);
    assert s0.orders == s.orders && s0.log == s.log && s0.refunds == s.refunds;
    if fee > 0 {
      ChannelFrame(s0, RAMFEE_ACCOUNT, fee);
      assert ExecRamTrade(s, receiver, bytes, fee) == ChannelToRex(s0, RAMFEE_ACCOUNT, fee);
    } else {
      assert ExecRamTrade(s, receiver, bytes, fee) == Ok(s0);
    }
  }

  lemma DepositStill(s: State, owner: Name, amount: int)
    requires ExecDeposit(s, owner, amount).Ok?
    ensures var s1 := ExecDeposit(s, owner, amount).value;
      s1.orders == s.orders && s1.log == s.log && s1.refunds == s.refunds
  {
    hide Transfer;
  }

  lemma SetRexStill(s: State, balance: int)
    requires ExecSetRex(s, balance).Ok?
    ensures ExecSetRex(s, balance).value.orders == s.orders && ExecSetRex(s, balance).value.log == s.log
    ensures ExecSetRex(s, balance).value.refunds == s.refunds
  {
  }

  lemma LoanFundStill(s: State, kind: Resource, owner: Name, id: nat, amount: int)
    ensures var r := ExecFundLoan(s, kind, owner, id, amount);
      r.Ok? ==> r.value.orders == s.orders && r.value.log == s.log && r.value.refunds == s.refunds
    ensures var r := ExecDefundLoan(s, kind, owner, id, amount);
      r.Ok? ==> r.value.orders == s.orders && r.value.log == s.log && r.value.refunds == s.refunds
  {
  }

  lemma BandwidthStill(s: State, source: Name, receiver: Name, net: int, cpu: int, transfer: bool)
    requires ChangeBandwidth(s, source, receiver, net, cpu, transfer).Ok?
    ensures var s1 := ChangeBandwidth(s, source, receiver, net, cpu, transfer).value;
      s1.orders == s.orders && s1.log == s.log
  {
    hide ChangeDelegation, UpdateTotals, NetAgainstRefund, Seconds, Value, Transfer, SameSign;
  }

  lemma RentAccount(s: State, kind: Resource, owner: Name, receiver: Name, payment: int, fund: int, n: Name)
    requires Inv(s, 0) && Exec(s, Rent(kind, owner, receiver, payment, fund)).Ok?
    ensures SoldOrWaiting(Exec(s, Rent(kind, owner, receiver, payment, fund)).value, n) == SoldOrWaiting(s, n)
  {
    hide Inv, Exec, RunRex, ProductKept, WeightMoved, FundMoved, SomeOpen, SoldOrWaiting;
    RentMoves(s, kind, owner, receiver, payment, fund);
    assert s.pool.Some? by { PoolPresent(s, 2); }
    RunRexAccount(s, 2, n);
    SameAccount(RunRex(s, 2).value, Exec(s, Rent(kind, owner, receiver, payment, fund)).value, n);
  }

  /** What an action adds to what `n` has asked to sell. */
  function Asks(a: Action, n: Name): int {
    if a.SellRex? && a.owner == n then a.rex else 0
  }

  /** What an action takes out of the queue again. */
  function Cancels(s: State, a: Action, n: Name): int {
    if a.CancelOrder? && a.owner == n then OpenRex(s.orders, n) else 0
  }

  /** Every performed action: what `n` sold or has waiting changes by what it asks and cancels. */
  lemma ExecAccount(s: State, a: Action, n: Name)
    requires Inv(s, 0) && Exec(s, a).Ok?
    ensures SoldOrWaiting(Exec(s, a).value, n) == SoldOrWaiting(s, n) + Asks(a, n) - Cancels(s, a, n)
  {
    hide Inv, ExecDeposit, ExecWithdraw, ExecBuyRex, ExecUnstakeToRex, ExecSellRex, ExecRent, ExecFundLoan,
         ExecDefundLoan, ExecUpdateRex, ExecSetRex, RunRex, ExecConsolidate, ExecMvToSavings, ExecMvFrSavings,
         ExecCloseRex, ClaimRefund, SyncVoteStake, ExecRamTrade, Bid, RefundBid, CloseAuction, SendTokens,
         ChangeBandwidth, SoldBy, Seconds;
    match a
    case BuyRex(owner, amount, voteOk) => BuyRexAccount(s, owner, amount, voteOk, n);
    case UnstakeToRex(owner, receiver, net, cpu, voteOk) => UnstakeAccount(s, owner, receiver, net, cpu, voteOk, n);
    case SellRex(owner, rex, voteOk) => SellAccount(s, owner, rex, voteOk, n);
    case CancelOrder(owner) =>
    case Rent(kind, owner, receiver, payment, fund) => RentAccount(s, kind, owner, receiver, payment, fund, n);
    case RexExec(max) =>
      PoolPresent(s, max);
      RunRexAccount(s, max, n);
    case Withdraw(owner, amount, voteOk) => WithdrawAccount(s, owner, amount, voteOk, n);
    case Delegate(owner, receiver, net, cpu, transfer, voteOk) =>
      BandwidthStill(s, owner, receiver, net, cpu, transfer);
    case Undelegate(owner, receiver, net, cpu, activated, voteOk) =>
      BandwidthStill(s, owner, receiver, -net, -cpu, false);
    case UpdateRex(_, _) => MaintainedAccount(s, a, n);
    case ConsolidateRex(_, _) => MaintainedAccount(s, a, n);
    case MvToSavings(_, _, _) => MaintainedAccount(s, a, n);
    case MvFrSavings(_, _, _) => MaintainedAccount(s, a, n);
    case CloseRex(_, _) => MaintainedAccount(s, a, n);
    case _ => StillAccount(s, a);
  }

  lemma WithdrawAccount(s: State, owner: Name, amount: int, voteOk: bool, n: Name)
    requires Inv(s, 0) && ExecWithdraw(s, owner, amount, voteOk).Ok?
    ensures SoldOrWaiting(ExecWithdraw(s, owner, amount, voteOk).value, n) == SoldOrWaiting(s, n)
  {
    hide Inv, SettleAccount, Transfer, SoldOrWaiting;
    SettledAfter(s, s, owner, n);
    SameAccount(SettleAccount(s, owner, 0).0, ExecWithdraw(s, owner, amount, voteOk).value, n);
  }

  /** Over a run from `s`: what `n` asked to sell, and what it took out of the queue again. */
  function AskedOver(s: State, actions: seq<Action>, n: Name): int {
    if actions == [] then 0
    else
      var rest, a := actions[..|actions| - 1], actions[|actions| - 1];
      AskedOver(s, rest, n) + (if Exec(Run(s, rest), a).Ok? then Asks(a, n) else 0)
  }

  function CancelledOver(s: State, actions: seq<Action>, n: Name): int {
    if actions == [] then 0
    else
      var rest, a := actions[..|actions| - 1], actions[|actions| - 1];
      CancelledOver(s, rest, n) + (if Exec(Run(s, rest), a).Ok? then Cancels(Run(s, rest), a, n) else 0)
  }

  /** Nothing that was asked for is lost: over any run from an empty exchange, all the REX an account
      asked to sell has been sold, at once or from the queue, is waiting, or was cancelled. */
  lemma {:induction false} AskedSoldOrWaiting(genesis: State, actions: seq<Action>, n: Name)
    requires Genesis(genesis) && forall i | 0 <= i < |actions| :: Admissible(actions[i])
    ensures var s := Run(genesis, actions);
      AskedOver(genesis, actions, n)
      == SoldBy(s.log, n, END_OF_DAYS) + OpenRex(s.orders, n) + CancelledOver(genesis, actions, n)
  {
    hide Inv, Exec, OpenRex, SoldBy, Genesis, Asks, Cancels;
    if actions == [] {
      NothingAsked(genesis, n);
    } else {
      var rest, a := actions[..|actions| - 1], actions[|actions| - 1];
      AskedSoldOrWaiting(genesis, rest, n);
      GenesisInv(genesis);
      RunKeeps(genesis, rest);
      if Exec(Run(genesis, rest), a).Ok? {
        ExecAccount(Run(genesis, rest), a, n);
      }
    }
  }

  lemma NothingAsked(s: State, n: Name)
    requires Genesis(s)
    ensures SoldBy(s.log, n, END_OF_DAYS) == 0 && OpenRex(s.orders, n) == 0
  {
  }

  // ---------- which orders a pass serves ----------

  /** The open orders at the cursor or behind it. */
  ghost function From(orders: map<Name, Order>, cursor: Option<Name>): set<Name> {
    set n | n in orders && orders[n].isOpen && cursor.Some? && cursor.value in orders
            && (n == cursor.value || Before(ByTime(orders), cursor.value, n))
  }

  /** `a` has waited longer than `b`, or as long under a smaller name. */
  predicate Earlier(orders: map<Name, Order>, a: Name, b: Name)
    requires a in orders && b in orders
  {
    orders[a].time < orders[b].time || (orders[a].time == orders[b].time && a < b)
  }

  /** Those of `names` that have waited longer than `n`. */
  ghost function Older(orders: map<Name, Order>, names: set<Name>, n: Name): set<Name>
    requires n in orders
  {
    set m | m in names && m in orders && Earlier(orders, m, n)
  }

  /** The pool cannot pay for the order of `n`. */
  ghost predicate Unpayable(p: Pool, rex: int) {
    p.rex > 0 && forall value | Rounded(value, rex * p.lendable, p.rex) :: !Payable(p, value)
  }

  /** The order of `n` was filled, or the pool cannot pay for it even now. */
  ghost predicate Served(s1: State, n: Name) {
    n in s1.orders && s1.pool.Some?
    && (s1.orders[n].isOpen ==> Unpayable(s1.pool.value, s1.orders[n].requested))
  }

  /** What the pool cannot pay now it cannot pay after paying others. */
  lemma StaysUnpayable(p: Pool, q: Pool, rex: int)
    requires PoolOk(p) && PoolOk(q) && PriceKept(p, q) && q.lent == p.lent && q.unlent <= p.unlent
    requires Unpayable(p, rex) && rex >= 0 && q.rex > 0
    ensures Unpayable(q, rex)
  {
    forall value | Rounded(value, rex * q.lendable, q.rex)
      ensures !Payable(q, value)
    {
      var was := (rex * p.lendable) / p.rex;
      Floor(rex * p.lendable, p.rex);
      assert Rounded(was, rex * p.lendable, p.rex);
      WorthNoLess(p, q, rex, was, value);
    }
  }

  lemma WorthNoLess(p: Pool, q: Pool, rex: int, was: int, value: int)
    requires p.rex > 0 && q.rex > 0 && rex >= 0 && p.lendable * q.rex <= q.lendable * p.rex
    requires Rounded(was, rex * p.lendable, p.rex) && Rounded(value, rex * q.lendable, q.rex)
    ensures was <= value
  {
    LaterWorth(was, rex, p.lendable, p.rex, q.lendable, q.rex);
    FloorAtMost(value, rex * q.lendable, q.rex);
  }

  /** Filling orders takes tokens out of the pool and lends nothing. */
  lemma FillQueuedTakes(s: State, owner: Name)
    requires Inv(s, 0) && owner in s.orders && s.orders[owner].isOpen
    requires s.pool.Some? && s.pool.value.namebidProceeds == 0
    ensures FillQueued(s, owner).Ok? && FillQueued(s, owner).value.pool.Some?
    ensures FillQueued(s, owner).value.pool.value.unlent <= s.pool.value.unlent
    ensures FillQueued(s, owner).value.orders[owner].isOpen ==> Served(FillQueued(s, owner).value, owner)
  {
    hide Core, OrdersInv, FillOrder, Seconds, PoolRuns, Value, Redeem, Available, SoldFrom, PoolOk, Unpayable;
    OpenCovered(s, owner);
    var rex := s.orders[owner].requested;
    FillKeeps(s, owner, rex, 0);
    SalePrice(s, owner, rex);
    InvPool(s, 0);
    var value := Value(s.pool.value, rex).value;
    if value <= Available(s.pool.value) {
      PoolRunsSome(s.pool, FillOrder(s, owner, rex).value.s.pool);
      RedeemMoves(s.pool.value, rex, value);
    } else {
      OnePrice(s.pool.value, rex, value);
    }
  }

  lemma OnePrice(p: Pool, rex: int, value: int)
    requires p.rex > 0 && Rounded(value, rex * p.lendable, p.rex) && !Payable(p, value)
    ensures Unpayable(p, rex)
  {
    forall other | Rounded(other, rex * p.lendable, p.rex)
      ensures !Payable(p, other)
    {
      FloorAtMost(value, rex * p.lendable, p.rex);
      FloorAtLeast(value, rex * p.lendable, p.rex);
      FloorAtMost(other, rex * p.lendable, p.rex);
      FloorAtLeast(other, rex * p.lendable, p.rex);
    }
  }

  lemma {:induction false} FillOrdersTake(s: State, cursor: Option<Name>, max: nat)
    requires Inv(s, 0) && s.pool.Some? && s.pool.value.namebidProceeds == 0
    ensures FillOrders(s, cursor, max).Ok? && FillOrders(s, cursor, max).value.pool.Some?
    ensures FillOrders(s, cursor, max).value.pool.value.unlent <= s.pool.value.unlent
    decreases max
  {
    hide Inv, FillQueued, PoolOk, NextOrder, PriceKept, Served;
    if max > 0 && cursor.Some? && cursor.value in s.orders && s.orders[cursor.value].isOpen {
      FillQueuedKeeps(s, cursor.value);
      FillQueuedTakes(s, cursor.value);
      FillOrdersTake(FillQueued(s, cursor.value).value, NextOrder(s.orders, cursor.value), max - 1);
    }
  }

  /** An order that was served stays served while the pass goes on. */
  lemma StaysServed(s: State, cursor: Option<Name>, max: nat, n: Name)
    requires Inv(s, 0) && s.pool.Some? && s.pool.value.namebidProceeds == 0 && Served(s, n)
    ensures FillOrders(s, cursor, max).Ok? && Served(FillOrders(s, cursor, max).value, n)
  {
    hide Inv, FillOrders, PoolOk, PriceKept, Unpayable;
    FillOrdersKeeps(s, cursor, max);
    FillOrdersTake(s, cursor, max);
    var s1 := FillOrders(s, cursor, max).value;
    if s1.orders[n].isOpen {
      OpenWithinPool(s1, n);
      InvPool'(s);
      InvPool'(s1);
      StaysUnpayable(s.pool.value, s1.pool.value, s.orders[n].requested);
    }
  }

  lemma OpenWithinPool(s: State, n: Name)
    requires Inv(s, 0) && n in s.orders && s.orders[n].isOpen && s.pool.Some?
    ensures 0 < s.orders[n].requested <= s.pool.value.rex
  {
    hide Core, OrdersInv;
    OpenCovered(s, n);
    BalanceWithinPool(s, n, 0);
  }

  /** After the order at the cursor, the orders behind it are next. */
  lemma NextFrom(orders: map<Name, Order>, orders1: map<Name, Order>, cursor: Name)
    requires cursor in orders && orders[cursor].isOpen && orders1.Keys == orders.Keys
    requires forall n | n in orders && n != cursor :: orders1[n] == orders[n]
    requires orders1[cursor].isOpen ==> orders1[cursor] == orders[cursor]
    ensures From(orders1, NextOrder(orders, cursor)) == From(orders, Some(cursor)) - {cursor}
  {
    hide Least;
    var key, key1 := ByTime(orders), ByTime(orders1);
    var later := set n | n in orders.Keys && Before(key, cursor, n);
    if later != {} {
      var next := Least(later, key);
      assert next in orders && next != cursor && key1(next) == key(next);
      forall n | n in orders && n != cursor
        ensures key1(n) == key(n)
        ensures n in later <==> n == next || Before(key1, next, n)
      {
        if n in later && n != next {
          assert Before(key, next, n);
        }
      }
      assert cursor !in From(orders1, Some(next)) by {
        assert Before(key, cursor, next);
        assert orders1[cursor].isOpen ==> key1(cursor) == key(cursor);
      }
    } else {
      assert forall n | n in From(orders, Some(cursor)) && n != cursor :: n in later;
    }
  }

  lemma OlderThan(orders: map<Name, Order>, orders1: map<Name, Order>, names: set<Name>, cursor: Name, n: Name)
    requires cursor in names && n in names && n != cursor && orders1.Keys == orders.Keys
    requires forall m | m in orders && m != cursor :: orders1[m] == orders[m]
    requires forall m | m in names && m != cursor :: m in orders && QueuedBefore(orders, cursor, m)
    requires cursor in orders
    ensures n in orders && n in orders1
    ensures |Older(orders, names, n)| == |Older(orders1, names - {cursor}, n)| + 1
  {
    assert Older(orders, names, n) == Older(orders1, names - {cursor}, n) + {cursor};
  }

  predicate QueuedBefore(orders: map<Name, Order>, a: Name, b: Name) {
    a in orders && b in orders && Earlier(orders, a, b)
  }

  /** From the cursor on, the first `max` open orders are served and the others stay as they were. */
  lemma {:induction false} ServedFrom(s: State, cursor: Option<Name>, max: nat, n: Name)
    requires Inv(s, 0) && s.pool.Some? && s.pool.value.namebidProceeds == 0
    requires n in From(s.orders, cursor)
    ensures FillOrders(s, cursor, max).Ok?
    ensures var s1 := FillOrders(s, cursor, max).value;
      if |Older(s.orders, From(s.orders, cursor), n)| < max then Served(s1, n)
      else n in s1.orders && s1.orders[n] == s.orders[n]
    decreases max
  {
    hide Inv, FillQueued, PoolOk, NextOrder, PriceKept, Served, ByTime, Before, Earlier;
    if max > 0 {
      var c := cursor.value;
      assert s.orders[c].isOpen by { CursorOpen(s, cursor, n); }
      FillQueuedKeeps(s, c);
      FillQueuedTakes(s, c);
      var s1 := FillQueued(s, c).value;
      var next := NextOrder(s.orders, c);
      NextFrom(s.orders, s1.orders, c);
      CursorEarliest(s, c);
      if n == c {
        assert Older(s.orders, From(s.orders, cursor), c) == {} by { NothingOlder(s, c); }
        assert Served(s1, c) by { ClosedServed(s1, c); }
        StaysServed(s1, next, max - 1, c);
      } else {
        ServedFrom(s1, next, max - 1, n);
        OlderThan(s.orders, s1.orders, From(s.orders, cursor), c, n);
      }
    }
  }

  lemma ClosedServed(s: State, n: Name)
    requires n in s.orders && s.pool.Some? && (s.orders[n].isOpen ==> Served(s, n))
    ensures Served(s, n)
  {
  }

  lemma CursorOpen(s: State, cursor: Option<Name>, n: Name)
    requires Inv(s, 0) && n in From(s.orders, cursor)
    ensures cursor.Some? && cursor.value in s.orders && s.orders[cursor.value].isOpen
  {
    hide Inv;
    OpenTimesInRange(s);
    assert n in OpenOrders(s.orders);
  }

  lemma CursorEarliest(s: State, c: Name)
    requires Inv(s, 0) && c in s.orders && s.orders[c].isOpen
    ensures forall m | m in From(s.orders, Some(c)) && m != c :: m in s.orders && QueuedBefore(s.orders, c, m)
    ensures c in From(s.orders, Some(c))
  {
    hide Inv;
  }

  lemma NothingOlder(s: State, c: Name)
    requires Inv(s, 0) && c in s.orders && s.orders[c].isOpen
    ensures Older(s.orders, From(s.orders, Some(c)), c) == {}
  {
    hide Inv;
  }

  /** Nobody is passed over: a pass over the queue serves the `max` orders that have waited longest,
      each of them filled unless the pool cannot pay for it even when the pass is over, and leaves
      the others as they were. */
  lemma QueueServed(s: State, max: nat, n: Name)
    requires Inv(s, 0) && s.pool.Some? && s.pool.value.namebidProceeds == 0 && n in OpenOrders(s.orders)
    ensures FillOrders(s, FirstOrder(s.orders), max).Ok?
    ensures var s1 := FillOrders(s, FirstOrder(s.orders), max).value;
      if |Older(s.orders, OpenOrders(s.orders), n)| < max then Served(s1, n)
      else n in s1.orders && s1.orders[n] == s.orders[n]
  {
    hide Inv, FillOrders, Served, Older;
    AllFromFirst(s.orders);
    ServedFrom(s, FirstOrder(s.orders), max, n);
  }

  lemma AllFromFirst(orders: map<Name, Order>)
    ensures From(orders, FirstOrder(orders)) == OpenOrders(orders)
  {
    FirstIsAhead(orders);
  }
}
