/** What the invariant means for whole runs of the exchange. */
module RexTheorems {
  import opened Basics
  import opened Arithmetic
  import opened Tables
  import opened Ledger
  import opened Maturity
  import opened RexPool
  import opened Rex
  import opened Actions
  import opened RexInvariant
  import opened RexProofs
  import opened ActionInv

  /** A state that admissible actions lead to from an empty exchange. */
  ghost predicate ReachedBy(s: State, genesis: State, actions: seq<Action>) {
    && Genesis(genesis) && s == Run(genesis, actions)
    && (forall i | 0 <= i < |actions| :: Admissible(actions[i]))
  }

  lemma ReachableInv(s: State, genesis: State, actions: seq<Action>)
    requires ReachedBy(s, genesis, actions)
    ensures Inv(s, 0)
  {
    hide Inv;
    GenesisInv(genesis);
    RunKeeps(genesis, actions);
  }

  // ---------- solvency ----------

  /** The three custodian accounts, in every reachable state: the REX account holds exactly the
      funds, the pool, the loan balances and the unclaimed proceeds; the stake account exactly the
      delegations and refunds; the names account at least what it owes. */
  lemma CustodiansSolvent(s: State, genesis: State, actions: seq<Action>)
    requires ReachedBy(s, genesis, actions)
    ensures Holds(s.tokens, REX_ACCOUNT)
         == SumOf(s.funds, Whole) + Lendable(s.pool) + SumOf(s.cpuLoans, LoanBalance) + SumOf(s.netLoans, LoanBalance)
            + SumOf(s.orders, Proceeds)
    ensures Holds(s.tokens, STAKE_ACCOUNT) == SumOf(s.delegations, Delegated) + SumOf(s.refunds, Pending)
    ensures Holds(s.tokens, NAMES_ACCOUNT)
         >= SumOf(s.bids, OpenBid) + SumOf(s.bidRefunds, Whole) + NamebidProceeds(s.pool)
  {
    hide SumOf, Run;
    ReachableInv(s, genesis, actions);
  }

  /** With the supply the comments assume, all amounts of core tokens and REX fit their integers,
      and the products of every sale, valuation and purchase fit 128 bits. */
  lemma AmountsFit(s: State, owner: Name, payment: nat)
    requires Inv(s, 0) && Supply(s.tokens) <= 100_000_000_000_000 && payment <= 100_000_000_000_000
    ensures s.pool.Some? ==>
      && 0 <= s.pool.value.lendable <= 100_000_000_000_000
      && 0 <= s.pool.value.rex <= 1_000_000_000_000_000_000 < 0x4000_0000_0000_0000
      && (s.pool.value.lendable + payment) * s.pool.value.rex < 0x1_0000_0000_0000_0000_0000_0000_0000_0000
    ensures owner in s.balances ==>
      && s.pool.Some? && 0 <= s.balances[owner].rex <= 1_000_000_000_000_000_000
      && s.balances[owner].rex * s.pool.value.lendable < 0x1_0000_0000_0000_0000_0000_0000_0000_0000
  {
    hide SumOf, Inv;
    HoldsAtMostSupply(s.tokens, REX_ACCOUNT);
    LiabilitiesNonNegative(s, 0);
    if s.pool.Some? {
      InvPool'(s);
      ProductFits(s.pool.value.lendable + payment, s.pool.value.rex);
    }
    if owner in s.balances {
      assert Core(s, 0) by { InvCore(s); }
      BalanceWithinPool(s, owner, 0);
      ProductFits(s.pool.value.lendable, s.balances[owner].rex);
    }
  }

  lemma ProductFits(amount: int, rex: int)
    requires 0 <= amount <= 200_000_000_000_000 && 0 <= rex <= 1_000_000_000_000_000_000
    ensures amount * rex < 0x1_0000_0000_0000_0000_0000_0000_0000_0000
    ensures rex * amount < 0x1_0000_0000_0000_0000_0000_0000_0000_0000
  {
    MulMono(rex, 1_000_000_000_000_000_000, amount);
  }

  lemma InvCore(s: State)
    requires Inv(s, 0)
    ensures Core(s, 0)
  {
  }

  // ---------- the thirty-day bound ----------

  /** Loans that were neither created nor renewed since `before`. */
  ghost predicate NoNewLending(before: map<nat, Loan>, after: map<nat, Loan>) {
    forall id | id in after ::
      id in before && after[id].staked == before[id].staked && after[id].expiration == before[id].expiration
  }

  /** An expired loan that cannot be renewed is closed. */
  lemma OneLoanExpires(s: State, kind: Resource, id: nat)
    requires Inv(s, 0) && !LoansAvailable(s) && id in Loans(s, kind) && Loans(s, kind)[id].expiration <= s.now
    ensures ExpireLoan(s, kind, id).Ok?
    ensures var s1 := ExpireLoan(s, kind, id).value;
      && Inv(s1, 0) && s1.pool.Some? && s1.now == s.now && !LoansAvailable(s1)
      && Loans(s1, kind) == Loans(s, kind) - {id} && |Loans(s1, kind)| == |Loans(s, kind)| - 1
  {
    hide Inv, ExpireLoan, LoansAvailable, PriceKept;
    ExpireLoanKeeps(s, kind, id);
    var s1 := ExpireLoan(s, kind, id).value;
    ExpiredRuns(s, s1, kind, id);
    assert (Loans(s, kind) - {id}).Keys == Loans(s, kind).Keys - {id};
  }

  ghost predicate AllExpired(loans: map<nat, Loan>, now: nat) {
    forall id | id in loans :: loans[id].expiration <= now
  }

  lemma ExpiredRows(loans: map<nat, Loan>, now: nat, id: nat)
    requires AllExpired(loans, now) && id in loans
    ensures loans[id].expiration <= now && AllExpired(loans - {id}, now)
  {
  }

  lemma LeastInRows(rows: set<nat>, key: nat -> int)
    requires rows != {}
    ensures Least(rows, key) in rows
  {
  }

  /** While an order is open and loans have expired, one pass over them closes them all. */
  lemma {:induction false} AllLoansExpire(s: State, kind: Resource, max: nat)
    requires Inv(s, 0) && s.pool.Some? && !LoansAvailable(s)
    requires AllExpired(Loans(s, kind), s.now)
    requires |Loans(s, kind)| <= max
    ensures RunLoans(s, kind, max).Ok? && Loans(RunLoans(s, kind, max).value, kind) == map[]
    decreases max
  {
    hide Inv, ExpireLoan, LoansAvailable, IsLeast, AllExpired, Loans;
    var loans := Loans(s, kind);
    hide RunLoans;
    if |loans| == 0 {
      RunLoansDone(s, kind, max);
    } else {
      var id := Least(loans.Keys, ByExpiration(loans));
      assert loans.Keys != {};
      assert id in loans by { LeastInRows(loans.Keys, ByExpiration(loans)); }
      assert loans[id].expiration <= s.now && AllExpired(loans - {id}, s.now) by { ExpiredRows(loans, s.now, id); }
      OneLoanExpires(s, kind, id);
      RunLoansTurn(s, kind, max, id);
      AllLoansExpire(ExpireLoan(s, kind, id).value, kind, max - 1);
    }
  }

  ghost function OpenOrders(orders: map<Name, Order>): set<Name> {
    set n | n in orders && orders[n].isOpen
  }

  /** Every open order is at the cursor or behind it in the queue. */
  ghost predicate Ahead(orders: map<Name, Order>, cursor: Option<Name>) {
    forall n | n in OpenOrders(orders) ::
      cursor.Some? && cursor.value in orders && (n == cursor.value || Before(ByTime(orders), cursor.value, n))
  }

  lemma FirstIsAhead(orders: map<Name, Order>)
    ensures Ahead(orders, FirstOrder(orders))
  {
    if orders.Keys != {} {
      var first := Least(orders.Keys, ByTime(orders));
      forall n | n in OpenOrders(orders)
        ensures n == first || Before(ByTime(orders), first, n)
      {
        assert n in orders.Keys;
      }
    }
  }

  /** Once the order at the cursor is closed, the next one leads the remaining open orders. */
  lemma NextIsAhead(orders: map<Name, Order>, orders1: map<Name, Order>, cursor: Name)
    requires cursor in OpenOrders(orders) && Ahead(orders, Some(cursor))
    requires orders1.Keys == orders.Keys && !orders1[cursor].isOpen
    requires forall n | n in orders && n != cursor :: orders1[n] == orders[n]
    ensures Ahead(orders1, NextOrder(orders, cursor)) && OpenOrders(orders1) == OpenOrders(orders) - {cursor}
  {
    var key, key1 := ByTime(orders), ByTime(orders1);
    var later := set n | n in orders.Keys && Before(key, cursor, n);
    forall n | n in OpenOrders(orders1)
      ensures n in later && n in orders.Keys && key1(n) == key(n)
    {
      assert n in OpenOrders(orders) && n != cursor;
    }
    if later != {} {
      var next := Least(later, key);
      assert next in orders && next != cursor && key1(next) == key(next);
      forall n | n in OpenOrders(orders1)
        ensures n == next || Before(key1, next, n)
      {
        assert n in later;
      }
    }
  }

  /** No open order is left once the cursor meets a filled one: filled orders come last. */
  lemma ClosedCursorEnds(s: State, cursor: Option<Name>)
    requires Inv(s, 0) && Ahead(s.orders, cursor)
    requires cursor.None? || cursor.value !in s.orders || !s.orders[cursor.value].isOpen
    ensures OpenOrders(s.orders) == {}
  {
    hide Core;
    OpenTimesInRange(s);
  }

  lemma OpenTimesInRange(s: State)
    requires Inv(s, 0)
    ensures forall n | n in OpenOrders(s.orders) :: s.orders[n].time < MAX_TIME
  {
    hide SumOf;
    assert s.now < MAX_TIME by { ClockInRange(s); }
    assert forall n | n in s.orders :: OrderOk(s.orders[n], s.balances, n, s.now);
  }

  lemma ClockInRange(s: State)
    requires Inv(s, 0)
    ensures ClockOk(Seconds(s.now))
  {
    hide SumOf;
  }

  /** With nothing lent, every order is filled. */
  lemma {:induction false} AllOrdersFill(s: State, cursor: Option<Name>, max: nat)
    requires Inv(s, 0) && s.pool.Some? && s.pool.value.namebidProceeds == 0 && s.pool.value.lent == 0
    requires Ahead(s.orders, cursor) && |OpenOrders(s.orders)| <= max
    ensures FillOrders(s, cursor, max).Ok?
    ensures OpenOrders(FillOrders(s, cursor, max).value.orders) == {}
    decreases max
  {
    hide Inv, FillQueued, NextOrder, PriceKept, PoolOk, Value;
    if cursor.None? || cursor.value !in s.orders || !s.orders[cursor.value].isOpen {
      ClosedCursorEnds(s, cursor);
    } else {
      var owner := cursor.value;
      assert owner in OpenOrders(s.orders);
      FillQueuedKeeps(s, owner);
      var s1 := FillQueued(s, owner).value;
      assert !s1.orders[owner].isOpen by {
        UnlentCoversOrder(s, owner);
      }
      NextIsAhead(s.orders, s1.orders, owner);
      AllOrdersFill(s1, NextOrder(s.orders, owner), max - 1);
    }
  }

  lemma UnlentCoversOrder(s: State, owner: Name)
    requires Inv(s, 0) && s.pool.Some? && s.pool.value.lent == 0
    requires owner in s.orders && s.orders[owner].isOpen
    ensures Value(s.pool.value, s.orders[owner].requested).Ok?
    ensures Value(s.pool.value, s.orders[owner].requested).value <= Available(s.pool.value)
  {
    hide SumOf, LockUpInv, BalancesInv, ResourcesInv, StakeInv, NamesInv, LoansInv, Solvent;
    assert OrderOk(s.orders[owner], s.balances, owner, s.now);
    BalanceWithinPool(s, owner, 0);
    RedeemKeepsPool(s.pool.value, s.orders[owner].requested);
  }

  /** The documented bound on queued sales. Once any open order is thirty days old, one `rexexec`
      that processes as many rows as there are closes every loan and fills every open order,
      whoever borrowed and whatever the loans' balances; each order is paid from the pool. */
  lemma ThirtyDayBound(s: State, n: Name, max: nat)
    requires Inv(s, 0) && n in s.orders && s.orders[n].isOpen && s.now >= s.orders[n].time + 2_592_000_000_000
    requires |s.cpuLoans| <= max && |s.netLoans| <= max && |OpenOrders(s.orders)| <= max
    ensures Exec(s, RexExec(max)).Ok?
    ensures var s1 := Exec(s, RexExec(max)).value;
      && s1.cpuLoans == map[] && s1.netLoans == map[]
      && s1.orders.Keys == s.orders.Keys && OpenOrders(s1.orders) == {}
      && s1.pool.Some? && s1.pool.value.lent == 0
  {
    hide Inv, RunLoans, FillOrders, PriceKept, ChannelNamebids, Exec, LoansAvailable;
    assert RunRex(s, max) == Exec(s, RexExec(max)) by { ExecRexExec(s, max); }
    assert s.pool.Some? by { OrderHasPool(s, n); }
    assert Core(s, 0) by { InvCore(s); }
    ChannelNamebidsKeeps(s);
    var s1 := ChannelNamebids(s).value;
    ChannelledInv(s, s1);
    LoansOverdue(s1, n);
    AllLoansExpire(s1, Cpu, max);
    RunLoansKeeps(s1, Cpu, max);
    var s2 := RunLoans(s1, Cpu, max).value;
    assert s2.pool.Some? by { RunsPools(s1, s2, Cpu); }
    LoansOverdue(s2, n);
    AllLoansExpire(s2, Net, max);
    RunLoansKeeps(s2, Net, max);
    var s3 := RunLoans(s2, Net, max).value;
    assert s3.pool.Some? by { RunsPools(s2, s3, Net); }
    NothingLent(s3);
    FirstIsAhead(s3.orders);
    AllOrdersFill(s3, FirstOrder(s3.orders), max);
    FillOrdersKeeps(s3, FirstOrder(s3.orders), max);
  }

  lemma ExecRexExec(s: State, max: nat)
    ensures RunRex(s, max) == Exec(s, RexExec(max))
  {
    hide RunRex;
  }

  lemma OrderHasPool(s: State, n: Name)
    requires Inv(s, 0) && n in s.orders && s.orders[n].isOpen
    ensures s.pool.Some?
  {
    hide SumOf;
    assert OrderOk(s.orders[n], s.balances, n, s.now);
  }

  lemma ChannelledInv(s: State, s1: State)
    requires Inv(s, 0) && Core(s1, 0) && s1 == s.(pool := s1.pool, tokens := s1.tokens)
    ensures Inv(s1, 0)
  {
    hide Core;
  }

  lemma LoansOverdue(s: State, n: Name)
    requires Inv(s, 0) && n in s.orders && s.orders[n].isOpen && s.now >= s.orders[n].time + LOAN_TERM
    ensures !LoansAvailable(s)
    ensures AllExpired(s.cpuLoans, s.now) && AllExpired(s.netLoans, s.now)
  {
    hide SumOf, LockUpInv, BalancesInv, ResourcesInv, StakeInv, NamesInv, PoolInv, LoansInv, Solvent, LoansAvailable;
    OpenOrderBlocksLoans(s, n);
  }

  lemma NothingLent(s: State)
    requires Inv(s, 0) && s.cpuLoans == map[] && s.netLoans == map[] && s.pool.Some?
    ensures s.pool.value.lent == 0
  {
    hide LockUpInv, BalancesInv, ResourcesInv, StakeInv, NamesInv, LoansInv, Solvent;
  }
}
