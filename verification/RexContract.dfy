/** The contract's own form of the resource exchange: an object whose actions update its tables
    in place. Every method is proved to do what the function of the same step says. */
module RexContract {
  import opened Basics
  import opened Tables
  import opened Ledger
  import opened Maturity
  import opened RexPool
  import opened Rex
  import opened Staking
  import opened Actions
  import opened RexInvariant
  import opened RexProofs
  import opened ActionInv

  class SystemContract {
    var now: nat
    var tokens: map<Name, nat>
    var pool: Option<Pool>
    var funds: map<Name, int>
    var balances: map<Name, RexBalance>
    var cpuLoans: map<nat, Loan>
    var netLoans: map<nat, Loan>
    var orders: map<Name, Order>
    var delegations: map<(Name, Name), Delegation>
    var totals: map<Name, Totals>
    var refunds: map<Name, Refund>
    var bids: map<Name, NameBid>
    var bidRefunds: map<(Name, Name), int>
    var log: seq<Event>

    function Tables(): State
      reads this
    {
      State(now, tokens, pool, funds, balances, cpuLoans, netLoans, orders, delegations, totals, refunds, bids,
        bidRefunds, log)
    }

    /** The chain hands the contract the tables it stored. */
    constructor (s: State)
      ensures Tables() == s
    {
      now, tokens, pool, funds, balances := s.now, s.tokens, s.pool, s.funds, s.balances;
      cpuLoans, netLoans, orders, delegations := s.cpuLoans, s.netLoans, s.orders, s.delegations;
      totals, refunds, bids, bidRefunds, log := s.totals, s.refunds, s.bids, s.bidRefunds, s.log;
    }

    /** The host discards what an aborted action did. */
    method Rollback(s: State)
      modifies this
      ensures Tables() == s
    {
      RestorePool(s);
      RestoreLoans(s);
      RestoreStake(s);
      RestoreBids(s);
    }

    method RestorePool(s: State)
      modifies this`pool, this`balances, this`orders, this`log
      ensures Tables() == old(Tables()).(pool := s.pool, balances := s.balances, orders := s.orders, log := s.log)
    {
      pool, balances, orders, log := s.pool, s.balances, s.orders, s.log;
    }

    method RestoreLoans(s: State)
      modifies this`funds, this`cpuLoans, this`netLoans
      ensures Tables() == old(Tables()).(funds := s.funds, cpuLoans := s.cpuLoans, netLoans := s.netLoans)
    {
      funds, cpuLoans, netLoans := s.funds, s.cpuLoans, s.netLoans;
    }

    method RestoreStake(s: State)
      modifies this`now, this`tokens, this`delegations, this`totals
      ensures Tables() == old(Tables()).(now := s.now, tokens := s.tokens, delegations := s.delegations,
        totals := s.totals)
    {
      now, tokens, delegations, totals := s.now, s.tokens, s.delegations, s.totals;
    }

    method RestoreBids(s: State)
      modifies this`refunds, this`bids, this`bidRefunds
      ensures Tables() == old(Tables()).(refunds := s.refunds, bids := s.bids, bidRefunds := s.bidRefunds)
    {
      refunds, bids, bidRefunds := s.refunds, s.bids, s.bidRefunds;
    }

    // ---------- inline transfers and funds ----------

    method InlineTransfer(from: Name, to: Name, quantity: int) returns (ok: bool)
      modifies this`tokens
      ensures ok == SendTokens(old(Tables()), from, to, quantity).Ok?
      ensures ok ==> Tables() == SendTokens(old(Tables()), from, to, quantity).value
    {
      if from == to || quantity <= 0 || from !in tokens || tokens[from] < quantity {
        return false;
      }
      tokens := tokens[from := tokens[from] - quantity];
      tokens := tokens[to := (if to in tokens then tokens[to] else 0) + quantity];
      return true;
    }

    method TransferFromFund(owner: Name, amount: int) returns (ok: bool)
      modifies this`funds
      ensures ok == FromFund(old(Tables()), owner, amount).Ok?
      ensures ok ==> Tables() == FromFund(old(Tables()), owner, amount).value
    {
      if amount <= 0 || owner !in funds || funds[owner] < amount {
        return false;
      }
      funds := funds[owner := funds[owner] - amount];
      return true;
    }

    method TransferToFund(owner: Name, amount: int) returns (ok: bool)
      modifies this`funds
      ensures ok == ToFund(old(Tables()), owner, amount).Ok?
      ensures ok ==> Tables() == ToFund(old(Tables()), owner, amount).value
    {
      if amount <= 0 {
        return false;
      }
      if owner !in funds {
        funds := funds[owner := amount];
      } else {
        funds := funds[owner := funds[owner] + amount];
      }
      return true;
    }

    // ---------- resources and fees ----------

    method UpdateResources(receiver: Name, net: int, cpu: int) returns (ok: bool)
      modifies this`totals
      ensures ok == UpdateTotals(old(totals), receiver, net, cpu).Ok?
      ensures ok ==> totals == UpdateTotals(old(totals), receiver, net, cpu).value
    {
      if net == 0 && cpu == 0 {
        return true;
      }
      if receiver !in totals {
        if net < 0 || cpu < 0 {
          return false;
        }
        totals := totals[receiver := Totals(net, cpu, 0)];
      } else {
        var row := totals[receiver];
        totals := totals[receiver := row.(net := row.net + net, cpu := row.cpu + cpu)];
      }
      if totals[receiver].net < 0 || totals[receiver].cpu < 0 {
        return false;
      }
      if totals[receiver].IsEmpty() {
        totals := totals - {receiver};
        assert totals == old(totals) - {receiver};
      }
      return true;
    }

    method UpdateLimits(kind: Resource, receiver: Name, delta: int) returns (ok: bool)
      modifies this`totals
      ensures ok == UpdateResourceLimits(old(Tables()), kind, receiver, delta).Ok?
      ensures ok ==> Tables() == UpdateResourceLimits(old(Tables()), kind, receiver, delta).value
    {
      ok := UpdateResources(receiver, if kind == Net then delta else 0, if kind == Cpu then delta else 0);
    }

    method ChannelFees(from: Name, amount: int) returns (ok: bool)
      modifies this`pool, this`tokens
      ensures ok == ChannelToRex(old(Tables()), from, amount).Ok?
      ensures ok ==> Tables() == ChannelToRex(old(Tables()), from, amount).value
    {
      if pool.Some? && pool.value.rex > 0 {
        pool := Some(pool.value.(unlent := pool.value.unlent + amount, lendable := pool.value.lendable + amount));
        ok := InlineTransfer(from, REX_ACCOUNT, amount);
      } else {
        ok := true;
      }
    }

    // ---------- maintenance ----------

    method PutLoans(kind: Resource, loans: map<nat, Loan>)
      modifies this`cpuLoans, this`netLoans
      ensures Tables() == WithLoans(old(Tables()), kind, loans)
    {
      if kind == Cpu {
        cpuLoans := loans;
      } else {
        netLoans := loans;
      }
    }

    method ProcessExpiredLoan(kind: Resource, id: nat) returns (ok: bool)
      requires id in Loans(Tables(), kind)
      modifies this`pool, this`funds, this`cpuLoans, this`netLoans, this`totals
      ensures ok == ExpireLoan(old(Tables()), kind, id).Ok?
      ensures ok ==> Tables() == ExpireLoan(old(Tables()), kind, id).value
    {
      hide RenewLoan, CloseLoan, BancorOutput, LoansAvailable;
      if pool.None? {
        return false;
      }
      var loans := if kind == Cpu then cpuLoans else netLoans;
      var loan := loans[id];
      pool := Some(RemoveLoan(pool.value, loan.staked));
      var rented := BancorOutput(pool.value.rent, pool.value.unlent, loan.payment);
      if loan.payment <= loan.balance && loan.payment < rented && LoansAvailable(Tables()) {
        ok := RenewExpired(kind, id, rented);
      } else {
        ok := CloseExpired(kind, id);
      }
    }

    method RenewExpired(kind: Resource, id: nat, rented: int) returns (ok: bool)
      requires id in Loans(Tables(), kind) && pool.Some?
      modifies this`pool, this`cpuLoans, this`netLoans, this`totals
      ensures ok == RenewLoan(old(Tables()), kind, id, rented).Ok?
      ensures ok ==> Tables() == RenewLoan(old(Tables()), kind, id, rented).value
    {
      hide UpdateTotals;
      var loans := if kind == Cpu then cpuLoans else netLoans;
      var loan := loans[id];
      pool := Some(AddLoan(pool.value, loan.payment, rented, false));
      PutLoans(kind, loans[id := Renewed(loan, rented)]);
      ok := UpdateLimits(kind, loan.receiver, rented - loan.staked);
    }

    method CloseExpired(kind: Resource, id: nat) returns (ok: bool)
      requires id in Loans(Tables(), kind)
      modifies this`funds, this`cpuLoans, this`netLoans, this`totals
      ensures ok == CloseLoan(old(Tables()), kind, id).Ok?
      ensures ok ==> Tables() == CloseLoan(old(Tables()), kind, id).value
    {
      hide UpdateTotals;
      var loans := if kind == Cpu then cpuLoans else netLoans;
      var loan := loans[id];
      if loan.balance > 0 {
        var _ := TransferToFund(loan.from, loan.balance);
      }
      PutLoans(kind, loans - {id});
      ok := UpdateLimits(kind, loan.receiver, -loan.staked);
    }

    /** One of the two loan loops of `runrex`. */
    method ProcessLoans(kind: Resource, max: nat) returns (ok: bool)
      modifies this`pool, this`funds, this`cpuLoans, this`netLoans, this`totals
      ensures ok == RunLoans(old(Tables()), kind, max).Ok?
      ensures ok ==> Tables() == RunLoans(old(Tables()), kind, max).value
    {
      hide ExpireLoan, RunLoans;
      for i := 0 to max
        invariant RunLoans(Tables(), kind, max - i) == RunLoans(old(Tables()), kind, max)
      {
        var loans := if kind == Cpu then cpuLoans else netLoans;
        if loans.Keys == {} {
          RunLoansNone(Tables(), kind, max - i);
          return true;
        }
        var id := Least(loans.Keys, ByExpiration(loans));
        if loans[id].expiration > now {
          RunLoansStop(Tables(), kind, max - i, id);
          return true;
        }
        ghost var before := Tables();
        var done := ProcessExpiredLoan(kind, id);
        if !done {
          RunLoansAborts(before, kind, max - i, id);
          return false;
        }
        RunLoansTurn(before, kind, max - i, id);
      }
      RunLoansNone(Tables(), kind, 0);
      return true;
    }

    /** Fills an order at once; `filled` tells whether the pool could pay. */
    method FillRexOrder(owner: Name, rex: int) returns (ok: bool, filled: bool, proceeds: int, stakeChange: int)
      requires owner in balances
      modifies this`pool, this`balances, this`log
      ensures ok == FillOrder(old(Tables()), owner, rex).Ok?
      ensures ok ==> filled == FillOrder(old(Tables()), owner, rex).value.Filled?
      ensures ok && filled ==> FillOrder(old(Tables()), owner, rex).value == Filled(Tables(), proceeds, stakeChange)
      ensures ok && !filled ==> Tables() == old(Tables())
    {
      filled, proceeds, stakeChange := false, 0, 0;
      if pool.None? || pool.value.rex == 0 {
        return false, filled, proceeds, stakeChange;
      }
      var s0, r0 := pool.value.lendable, pool.value.rex;
      var p := (rex * s0) / r0;
      if p <= pool.value.unlent - (2 * pool.value.lent) / 10 {
        var rb := balances[owner];
        var current := (rb.rex * s0) / r0;
        pool := Some(pool.value.(rex := r0 - rex, lendable := s0 - p, unlent := s0 - p - pool.value.lent));
        balances := balances[owner := rb.(voteStake := current - p, rex := rb.rex - rex, matured := rb.matured - rex)];
        log := log + [Sold(owner, rex, Seconds(now))];
        return true, true, p, current - p - rb.voteStake;
      }
      return true, filled, proceeds, stakeChange;
    }

    /** The third loop of `runrex`: the next order is looked up before the current one is filled. */
    method ProcessOrders(max: nat) returns (ok: bool)
      modifies this`pool, this`balances, this`orders, this`log
      ensures ok == FillOrders(old(Tables()), FirstOrder(old(orders)), max).Ok?
      ensures ok ==> Tables() == FillOrders(old(Tables()), FirstOrder(old(orders)), max).value
    {
      hide FillOrder, FirstOrder, NextOrder;
      var cursor := FirstOrder(orders);
      for i := 0 to max
        invariant FillOrders(Tables(), cursor, max - i) == FillOrders(old(Tables()), FirstOrder(old(orders)), max)
      {
        if cursor.None? || cursor.value !in orders || !orders[cursor.value].isOpen {
          return true;
        }
        var owner := cursor.value;
        var next := NextOrder(orders, owner);
        ghost var before := Tables();
        if owner in balances {
          var done, filled, proceeds, stakeChange := FillRexOrder(owner, orders[owner].requested);
          if !done {
            return false;
          }
          if filled {
            orders := orders[owner := orders[owner].(proceeds := proceeds, stakeChange := stakeChange,
              isOpen := false)];
          }
        }
        assert FillQueued(before, owner) == Ok(Tables());
        cursor := next;
      }
      return true;
    }

    method RunRexStep(max: nat) returns (ok: bool)
      modifies this
      ensures ok == RunRex(old(Tables()), max).Ok?
      ensures ok ==> Tables() == RunRex(old(Tables()), max).value
    {
      hide RunLoans, FillOrders, FirstOrder;
      if pool.None? {
        return false;
      }
      if pool.value.namebidProceeds > 0 {
        ok := ChannelFees(NAMES_ACCOUNT, pool.value.namebidProceeds);
        if !ok {
          return;
        }
        pool := Some(pool.value.(namebidProceeds := 0));
      }
      assert ChannelNamebids(old(Tables())) == Ok(Tables());
      ok := ProcessLoans(Cpu, max);
      if !ok {
        return;
      }
      ok := ProcessLoans(Net, max);
      if !ok {
        return;
      }
      ok := ProcessOrders(max);
    }

    // ---------- shared steps ----------

    /** `update_rex_account`, without its voting side. */
    method UpdateRexAccount(owner: Name, proceeds: int) returns (inOrder: int)
      modifies this`orders, this`funds
      ensures (Tables(), inOrder) == SettleAccount(old(Tables()), owner, proceeds)
    {
      inOrder := 0;
      var toFund := proceeds;
      if owner in orders {
        if orders[owner].isOpen {
          inOrder := orders[owner].requested;
        } else {
          toFund := toFund + orders[owner].proceeds;
          orders := orders - {owner};
        }
      }
      if toFund > 0 {
        var _ := TransferToFund(owner, toFund);
      }
    }

    method ProcessMaturities(owner: Name)
      requires owner in balances
      modifies this`balances
      ensures Tables() == PutBalance(old(Tables()), owner, Process(old(balances[owner]), Seconds(now)))
    {
      var rb := balances[owner];
      while rb.maturities != [] && rb.maturities[0].time <= Seconds(now)
        invariant Process(rb, Seconds(now)) == Process(old(balances[owner]), Seconds(now))
        decreases |rb.maturities|
      {
        rb := rb.(matured := rb.matured + rb.maturities[0].amount, maturities := rb.maturities[1..]);
      }
      balances := balances[owner := rb];
    }

    /** Reads and removes the savings bucket of `owner`. */
    method ReadSavings(owner: Name) returns (savings: int)
      requires owner in balances
      modifies this`balances
      ensures savings == Savings(old(balances[owner].maturities))
      ensures Tables() == PutBalance(old(Tables()), owner,
        old(balances[owner]).(maturities := Body(old(balances[owner].maturities))))
    {
      savings := 0;
      var rb := balances[owner];
      var q := rb.maturities;
      if q != [] && q[|q| - 1].time == END_OF_DAYS {
        savings := q[|q| - 1].amount;
        q := q[..|q| - 1];
      }
      balances := balances[owner := rb.(maturities := q)];
    }

    method PutSavingsBack(owner: Name, savings: int)
      requires owner in balances
      modifies this`balances
      ensures Tables() == PutBalance(old(Tables()), owner,
        old(balances[owner]).(maturities := PutSavings(old(balances[owner].maturities), savings)))
    {
      var rb := balances[owner];
      balances := balances[owner := rb.(maturities := PutSavings(rb.maturities, savings))];
    }

    method AddToNewestBucket(owner: Name, amount: int)
      requires owner in balances
      modifies this`balances
      ensures Tables() == PutBalance(old(Tables()), owner,
        old(balances[owner]).(maturities :=
          AddAtBack(old(balances[owner].maturities), RexMaturity(Seconds(now)), amount)))
    {
      var rb := balances[owner];
      balances := balances[owner := rb.(maturities := AddAtBack(rb.maturities, RexMaturity(Seconds(now)), amount))];
    }

    /** `add_to_rex_pool`. */
    method AddToRexPool(payment: int) returns (ok: bool, rex: int)
      modifies this`pool
      ensures ok == AddToPool(old(Tables()), payment).Ok?
      ensures ok ==> (Tables(), rex) == AddToPool(old(Tables()), payment).value
    {
      rex := 0;
      if pool.None? {
        rex := payment * REX_RATIO;
        pool := Some(Pool(0, payment, INITIAL_RENT, payment, rex, 0, 0));
      } else if pool.value.rex <= 0 {
        rex := payment * REX_RATIO;
        pool := Some(pool.value.(lendable := payment, lent := 0));
        pool := Some(pool.value.(unlent := pool.value.lendable - pool.value.lent, rent := INITIAL_RENT, rex := rex));
      } else {
        if pool.value.lendable <= 0 {
          return false, 0;
        }
        var s0, r0 := pool.value.lendable, pool.value.rex;
        var s1 := s0 + payment;
        var r1 := (s1 * r0) / s0;
        rex := r1 - r0;
        pool := Some(pool.value.(lendable := s1, rex := r1));
        pool := Some(pool.value.(unlent := pool.value.lendable - pool.value.lent));
        if pool.value.unlent < 0 {
          return false, 0;
        }
      }
      return true, rex;
    }

    /** `add_to_rex_balance`. */
    method AddToRexBalance(owner: Name, payment: int, rex: int) returns (ok: bool)
      modifies this`balances, this`log
      ensures ok == AddToBalance(old(Tables()), owner, payment, rex).Ok?
      ensures ok ==> Tables() == AddToBalance(old(Tables()), owner, payment, rex).value
    {
      hide Process, AddAtBack, PutSavings, Body, Savings, RexMaturity;
      if owner !in balances {
        balances := balances[owner := RexBalance(payment, rex, 0, [])];
      } else {
        if pool.None? || pool.value.rex == 0 {
          return false;
        }
        var rb := balances[owner];
        balances := balances[owner := rb.(rex := rb.rex + rex,
                                          voteStake := ((rb.rex + rex) * pool.value.lendable) / pool.value.rex)];
      }
      RefillBalance(owner, rex, 0);
      log := log + [Bought(owner, rex, Seconds(now))];
      return true;
    }

    /** Sets savings aside, matures what is due, adds `amount` to the newest bucket and puts the
        savings back, less what is `moved` out of them. */
    method RefillBalance(owner: Name, amount: int, moved: int)
      requires owner in balances
      modifies this`balances
      ensures Tables() == PutBalance(old(Tables()), owner, Refill(old(balances[owner]), Seconds(now), amount,
        Savings(old(balances[owner].maturities)) - moved))
    {
      hide Process, AddAtBack, PutSavings, Body, Savings, RexMaturity;
      var savings := ReadSavings(owner);
      ProcessMaturities(owner);
      AddToNewestBucket(owner, amount);
      PutSavingsBack(owner, savings - moved);
      assert balances == old(balances)[owner := balances[owner]];
    }

    /** Pays into the pool and credits the shares. */
    method Purchase(owner: Name, payment: int) returns (ok: bool)
      modifies this`pool, this`balances, this`log
      ensures ok == BuyShares(old(Tables()), owner, payment).Ok?
      ensures ok ==> Tables() == BuyShares(old(Tables()), owner, payment).value
    {
      hide AddToPool, AddToBalance;
      var rex;
      ok, rex := AddToRexPool(payment);
      if ok {
        ok := AddToRexBalance(owner, payment, rex);
      }
    }

    /** Changes a delegation row; an emptied row is erased. */
    method ChangeDelegated(from: Name, to: Name, net: int, cpu: int) returns (ok: bool)
      modifies this`delegations
      ensures ok == ChangeDelegation(old(delegations), from, to, net, cpu).Ok?
      ensures ok ==> delegations == ChangeDelegation(old(delegations), from, to, net, cpu).value
    {
      var key := (from, to);
      if key !in delegations {
        delegations := delegations[key := Delegation(to, net, cpu)];
      } else {
        var row := delegations[key];
        delegations := delegations[key := row.(net := row.net + net, cpu := row.cpu + cpu)];
      }
      if delegations[key].net < 0 || delegations[key].cpu < 0 {
        return false;
      }
      if delegations[key].IsEmpty() {
        delegations := delegations - {key};
        assert delegations == old(delegations) - {key};
      }
      return true;
    }

    method TakeFromStake(owner: Name, receiver: Name, net: int, cpu: int) returns (ok: bool)
      modifies this`delegations, this`totals, this`tokens
      ensures ok == UnstakeForRex(old(Tables()), owner, receiver, net, cpu).Ok?
      ensures ok ==> Tables() == UnstakeForRex(old(Tables()), owner, receiver, net, cpu).value
    {
      hide UpdateTotals, ChangeDelegation, Transfer;
      var key := (owner, receiver);
      if key !in delegations || delegations[key].net < net || delegations[key].cpu < cpu {
        return false;
      }
      ok := ChangeDelegated(owner, receiver, -net, -cpu);
      if ok {
        ok := UpdateResources(receiver, -net, -cpu);
      }
      if ok {
        ok := InlineTransfer(STAKE_ACCOUNT, REX_ACCOUNT, net + cpu);
      }
    }

    // ---------- the actions ----------

    method DoDeposit(owner: Name, amount: int) returns (ok: bool)
      modifies this
      ensures ok == ExecDeposit(old(Tables()), owner, amount).Ok?
      ensures ok ==> Tables() == ExecDeposit(old(Tables()), owner, amount).value
    {
      if amount <= 0 {
        return false;
      }
      ok := InlineTransfer(owner, REX_ACCOUNT, amount);
      if ok {
        ok := TransferToFund(owner, amount);
      }
    }

    method DoWithdraw(owner: Name, amount: int, voteOk: bool) returns (ok: bool)
      modifies this
      ensures ok == ExecWithdraw(old(Tables()), owner, amount, voteOk).Ok?
      ensures ok ==> Tables() == ExecWithdraw(old(Tables()), owner, amount, voteOk).value
    {
      hide SettleAccount;
      if amount <= 0 {
        return false;
      }
      var _ := UpdateRexAccount(owner, 0);
      if !voteOk {
        return false;
      }
      ok := TransferFromFund(owner, amount);
      if ok {
        ok := InlineTransfer(REX_ACCOUNT, owner, amount);
      }
    }

    method DoBuyRex(owner: Name, amount: int, voteOk: bool) returns (ok: bool)
      modifies this
      ensures ok == ExecBuyRex(old(Tables()), owner, amount, voteOk).Ok?
      ensures ok ==> Tables() == ExecBuyRex(old(Tables()), owner, amount, voteOk).value
    {
      hide BuyShares, RunRex, SettleAccount;
      if amount <= 0 || !voteOk {
        return false;
      }
      ok := TransferFromFund(owner, amount);
      if ok {
        ok := Purchase(owner, amount);
      }
      if ok {
        ok := RunRexStep(2);
      }
      if ok {
        var _ := UpdateRexAccount(owner, 0);
      }
    }

    method DoUnstakeToRex(owner: Name, receiver: Name, net: int, cpu: int, voteOk: bool) returns (ok: bool)
      modifies this
      ensures ok == ExecUnstakeToRex(old(Tables()), owner, receiver, net, cpu, voteOk).Ok?
      ensures ok ==> Tables() == ExecUnstakeToRex(old(Tables()), owner, receiver, net, cpu, voteOk).value
    {
      hide BuyShares, RunRex, SettleAccount, UnstakeForRex;
      if net < 0 || cpu < 0 || (net == 0 && cpu == 0) || !voteOk {
        return false;
      }
      ok := TakeFromStake(owner, receiver, net, cpu);
      if ok {
        ok := Purchase(owner, net + cpu);
      }
      if ok {
        ok := RunRexStep(2);
      }
      if ok {
        var _ := UpdateRexAccount(owner, 0);
      }
    }

    method DoSellRex(owner: Name, rex: int, voteOk: bool) returns (ok: bool)
      modifies this
      ensures ok == ExecSellRex(old(Tables()), owner, rex, voteOk).Ok?
      ensures ok ==> Tables() == ExecSellRex(old(Tables()), owner, rex, voteOk).value
    {
      hide RunRex, SettleAccount, Process, FillOrder;
      ok := RunRexStep(2);
      if !ok || owner !in balances || rex <= 0 {
        return false;
      }
      ProcessMaturities(owner);
      if balances[owner].matured < rex {
        return false;
      }
      var done, filled, proceeds, stakeChange := FillRexOrder(owner, rex);
      if !done || (filled && proceeds == 0) {
        return false;
      }
      var pending := UpdateRexAccount(owner, if filled then proceeds else 0);
      if !voteOk {
        return false;
      }
      if !filled {
        if owner == B1 {
          return false;
        }
        if owner !in orders {
          orders := orders[owner := Order(rex, 0, 0, now, true)];
        } else {
          orders := orders[owner := orders[owner].(requested := orders[owner].requested + rex)];
        }
        pending := orders[owner].requested;
      }
      return owner in balances && pending <= balances[owner].matured;
    }

    method DoCancelOrder(owner: Name) returns (ok: bool)
      modifies this`orders
      ensures ok == ExecCancelOrder(old(Tables()), owner).Ok?
      ensures ok ==> Tables() == ExecCancelOrder(old(Tables()), owner).value
    {
      if owner !in orders || !orders[owner].isOpen {
        return false;
      }
      orders := orders - {owner};
      return true;
    }

    method DoRent(kind: Resource, owner: Name, receiver: Name, payment: int, fund: int) returns (ok: bool)
      modifies this
      ensures ok == ExecRent(old(Tables()), kind, owner, receiver, payment, fund).Ok?
      ensures ok ==> Tables() == ExecRent(old(Tables()), kind, owner, receiver, payment, fund).value
    {
      hide RunRex, LoansAvailable, CreateLoan;
      ok := RunRexStep(2);
      if !ok || !LoansAvailable(Tables()) || payment <= 0 || fund < 0 {
        return false;
      }
      ok := TransferFromFund(owner, payment + fund);
      if ok {
        ok := OpenLoan(kind, owner, receiver, payment, fund);
      }
    }

    /** Rents at the current price and stores the loan under the next number. */
    method OpenLoan(kind: Resource, owner: Name, receiver: Name, payment: int, fund: int) returns (ok: bool)
      modifies this`pool, this`cpuLoans, this`netLoans, this`totals
      ensures ok == CreateLoan(old(Tables()), kind, owner, receiver, payment, fund).Ok?
      ensures ok ==> Tables() == CreateLoan(old(Tables()), kind, owner, receiver, payment, fund).value
    {
      hide UpdateTotals, BancorOutput;
      if pool.None? {
        return false;
      }
      var rented := BancorOutput(pool.value.rent, pool.value.unlent, payment);
      if payment >= rented {
        return false;
      }
      pool := Some(AddLoan(pool.value, payment, rented, true));
      var loans := if kind == Cpu then cpuLoans else netLoans;
      PutLoans(kind, loans[pool.value.loanNum := Loan(owner, receiver, payment, fund, rented, now + LOAN_TERM)]);
      ok := UpdateLimits(kind, receiver, rented);
    }

    method DoFundLoan(kind: Resource, owner: Name, id: nat, payment: int) returns (ok: bool)
      modifies this
      ensures ok == ExecFundLoan(old(Tables()), kind, owner, id, payment).Ok?
      ensures ok ==> Tables() == ExecFundLoan(old(Tables()), kind, owner, id, payment).value
    {
      ok := TransferFromFund(owner, payment);
      var loans := if kind == Cpu then cpuLoans else netLoans;
      if !ok || id !in loans || loans[id].from != owner || loans[id].expiration <= now {
        return false;
      }
      PutLoans(kind, loans[id := loans[id].(balance := loans[id].balance + payment)]);
    }

    method DoDefundLoan(kind: Resource, owner: Name, id: nat, amount: int) returns (ok: bool)
      modifies this
      ensures ok == ExecDefundLoan(old(Tables()), kind, owner, id, amount).Ok?
      ensures ok ==> Tables() == ExecDefundLoan(old(Tables()), kind, owner, id, amount).value
    {
      var loans := if kind == Cpu then cpuLoans else netLoans;
      if id !in loans || loans[id].from != owner || loans[id].expiration <= now || loans[id].balance < amount {
        return false;
      }
      PutLoans(kind, loans[id := loans[id].(balance := loans[id].balance - amount)]);
      ok := TransferToFund(owner, amount);
    }

    method DoUpdateRex(owner: Name, voteOk: bool) returns (ok: bool)
      modifies this
      ensures ok == ExecUpdateRex(old(Tables()), owner, voteOk).Ok?
      ensures ok ==> Tables() == ExecUpdateRex(old(Tables()), owner, voteOk).value
    {
      hide RunRex, SettleAccount, Process;
      ok := RunRexStep(2);
      if !ok || owner !in balances || pool.None? {
        return false;
      }
      var rb := balances[owner];
      var stake := 0;
      if pool.value.rex > 0 {
        stake := (rb.rex * pool.value.lendable) / pool.value.rex;
      }
      balances := balances[owner := rb.(voteStake := stake)];
      var _ := UpdateRexAccount(owner, 0);
      if !voteOk {
        return false;
      }
      ProcessMaturities(owner);
    }

    method DoSetRex(balance: int) returns (ok: bool)
      modifies this`pool
      ensures ok == ExecSetRex(old(Tables()), balance).Ok?
      ensures ok ==> Tables() == ExecSetRex(old(Tables()), balance).value
    {
      if balance <= 0 || pool.None? {
        return false;
      }
      pool := Some(pool.value.(rent := balance));
      return true;
    }

    method DoConsolidate(owner: Name, voteOk: bool) returns (ok: bool)
      modifies this
      ensures ok == ExecConsolidate(old(Tables()), owner, voteOk).Ok?
      ensures ok ==> Tables() == ExecConsolidate(old(Tables()), owner, voteOk).value
    {
      hide RunRex, SettleAccount, Consolidate;
      ok := RunRexStep(2);
      if !ok || owner !in balances {
        return false;
      }
      var inOrder := UpdateRexAccount(owner, 0);
      if !voteOk {
        return false;
      }
      ConsolidateBalance(owner, inOrder);
    }

    /** `consolidate_rex_balance`. */
    method ConsolidateBalance(owner: Name, inOrder: int)
      requires owner in balances
      modifies this`balances
      ensures Tables() == PutBalance(old(Tables()), owner, Consolidate(old(balances[owner]), Seconds(now), inOrder))
    {
      hide PutSavings, Savings, Body;
      var savings := ReadSavings(owner);
      var rb := balances[owner];
      var emptied := SumBuckets(rb.maturities);
      var total := rb.matured - inOrder + emptied;
      rb := rb.(matured := inOrder, maturities := if total > 0 then [Bucket(RexMaturity(Seconds(now)), total)] else []);
      balances := balances[owner := rb];
      PutSavingsBack(owner, savings);
      assert balances == old(balances)[owner := balances[owner]];
    }

    /** The loop of `consolidate_rex_balance`: empties the buckets from the front. */
    static method SumBuckets(buckets: seq<Bucket>) returns (total: int)
      ensures total == Amounts(buckets)
    {
      total := 0;
      var q := buckets;
      while q != []
        invariant total + Amounts(q) == Amounts(buckets)
        decreases |q|
      {
        total := total + q[0].amount;
        q := q[1..];
      }
    }

    method DoMvToSavings(owner: Name, rex: int, voteOk: bool) returns (ok: bool)
      modifies this
      ensures ok == ExecMvToSavings(old(Tables()), owner, rex, voteOk).Ok?
      ensures ok ==> Tables() == ExecMvToSavings(old(Tables()), owner, rex, voteOk).value
    {
      hide RunRex, SettleAccount, MoveToSavings;
      ok := RunRexStep(2);
      if !ok || owner !in balances || rex <= 0 {
        return false;
      }
      var inOrder := UpdateRexAccount(owner, 0);
      if !voteOk {
        return false;
      }
      ok := MoveBucketsToSavings(owner, rex, inOrder);
    }

    method MoveBucketsToSavings(owner: Name, rex: int, inOrder: int) returns (ok: bool)
      requires owner in balances
      modifies this`balances
      ensures ok == MoveToSavings(old(balances[owner]), Seconds(now), rex, inOrder).Ok?
      ensures ok ==> Tables() == PutBalance(old(Tables()), owner,
        MoveToSavings(old(balances[owner]), Seconds(now), rex, inOrder).value)
    {
      hide Process, PutSavings, Savings, Body, TakeFromBack;
      var savings := ReadSavings(owner);
      if rex + inOrder + savings > balances[owner].rex {
        return false;
      }
      ProcessMaturities(owner);
      var rb := balances[owner];
      var q, missing := TakeBuckets(rb.maturities, rex);
      rb := rb.(maturities := q);
      if missing > 0 {
        rb := rb.(matured := rb.matured - missing);
        if inOrder > rb.matured {
          return false;
        }
      }
      balances := balances[owner := rb];
      PutSavingsBack(owner, savings + rex);
      assert balances == old(balances)[owner := balances[owner]];
      return true;
    }

    /** The loop of `mvtosavings`: buckets give up REX, the latest first. */
    static method TakeBuckets(buckets: seq<Bucket>, rex: int) returns (q: seq<Bucket>, missing: int)
      ensures (q, missing) == TakeFromBack(buckets, rex)
    {
      q := buckets;
      var moved := 0;
      while q != [] && moved < rex
        invariant TakeFromBack(q, rex - moved) == TakeFromBack(buckets, rex)
        decreases |q|, rex - moved
      {
        var last := q[|q| - 1];
        var taken := Min(rex - moved, last.amount);
        moved := moved + taken;
        if last.amount - taken == 0 {
          q := q[..|q| - 1];
        } else {
          q := q[..|q| - 1] + [Bucket(last.time, last.amount - taken)];
        }
      }
      missing := rex - moved;
    }

    method DoMvFrSavings(owner: Name, rex: int, voteOk: bool) returns (ok: bool)
      modifies this
      ensures ok == ExecMvFrSavings(old(Tables()), owner, rex, voteOk).Ok?
      ensures ok ==> Tables() == ExecMvFrSavings(old(Tables()), owner, rex, voteOk).value
    {
      hide RunRex, SettleAccount, Refill, Savings;
      ok := RunRexStep(2);
      if !ok || owner !in balances || rex <= 0 {
        return false;
      }
      if Savings(balances[owner].maturities) < rex {
        return false;
      }
      RefillBalance(owner, rex, rex);
      var _ := UpdateRexAccount(owner, 0);
      return voteOk;
    }

    method DoCloseRex(owner: Name, voteOk: bool) returns (ok: bool)
      modifies this
      ensures ok == ExecCloseRex(old(Tables()), owner, voteOk).Ok?
      ensures ok ==> Tables() == ExecCloseRex(old(Tables()), owner, voteOk).value
    {
      hide RunRex, SettleAccount, NoLoansOf;
      if pool.Some? {
        ok := RunRexStep(2);
        if !ok {
          return;
        }
      }
      var _ := UpdateRexAccount(owner, 0);
      if !voteOk {
        return false;
      }
      if NoLoansOf(cpuLoans, owner) && NoLoansOf(netLoans, owner) && owner in funds && funds[owner] == 0 {
        funds := funds - {owner};
      }
      if owner in balances {
        if balances[owner].rex != 0 {
          return false;
        }
        balances := balances - {owner};
      } else {
        assert balances - {owner} == balances;
      }
      return true;
    }

    // ---------- the staking ledger ----------

    method SyncStake(owner: Name) returns (ok: bool)
      modifies this`balances
      ensures ok == SyncVoteStake(old(Tables()), owner).Ok?
      ensures ok ==> Tables() == SyncVoteStake(old(Tables()), owner).value
    {
      if owner in balances && pool.Some? && pool.value.rex > 0 {
        var rb := balances[owner];
        balances := balances[owner := rb.(voteStake := (rb.rex * pool.value.lendable) / pool.value.rex)];
      }
      return true;
    }

    /** The refund part of `changebw`: nets the change against a pending refund of `from`. */
    method UpdateRefund(from: Name, net: int, cpu: int) returns (netLeft: int, cpuLeft: int)
      modifies this`refunds
      ensures (refunds, netLeft, cpuLeft) == NetAgainstRefund(old(refunds), from, Seconds(now), net, cpu)
    {
      netLeft, cpuLeft := net, cpu;
      if from in refunds {
        var r := refunds[from];
        if net < 0 || cpu < 0 {
          r := r.(time := Seconds(now));
        }
        r := r.(net := r.net - net);
        if r.net < 0 {
          netLeft := -r.net;
          r := r.(net := 0);
        } else {
          netLeft := 0;
        }
        r := r.(cpu := r.cpu - cpu);
        if r.cpu < 0 {
          cpuLeft := -r.cpu;
          r := r.(cpu := 0);
        } else {
          cpuLeft := 0;
        }
        if r.IsEmpty() {
          refunds := refunds - {from};
        } else {
          refunds := refunds[from := r];
        }
      } else if net < 0 || cpu < 0 {
        var r := Refund(Seconds(now), 0, 0);
        if net < 0 {
          r := r.(net := -net);
          netLeft := 0;
        }
        if cpu < 0 {
          r := r.(cpu := -cpu);
          cpuLeft := 0;
        }
        refunds := refunds[from := r];
      }
    }

    method ChangeBw(source: Name, receiver: Name, net: int, cpu: int, transfer: bool) returns (ok: bool)
      modifies this`delegations, this`totals, this`refunds, this`tokens, this`balances
      ensures ok == ChangeBandwidth(old(Tables()), source, receiver, net, cpu, transfer).Ok?
      ensures ok ==> Tables() == ChangeBandwidth(old(Tables()), source, receiver, net, cpu, transfer).value
    {
      hide ChangeDelegation, UpdateTotals, SettleStake, SyncVoteStake, SameSign;
      if (net == 0 && cpu == 0) || !SameSign(net, cpu) {
        return false;
      }
      var from := if transfer then receiver else source;
      ok := ChangeDelegated(from, receiver, net, cpu);
      if !ok {
        return;
      }
      ok := UpdateResources(receiver, net, cpu);
      if !ok {
        return;
      }
      ok := CollectStake(source, from, receiver, net, cpu, transfer);
      if ok {
        ok := SyncStake(from);
      }
    }

    /** Updates the refund of `from` and collects the stake that no refund covered. */
    method CollectStake(source: Name, from: Name, receiver: Name, net: int, cpu: int, transfer: bool) returns (ok: bool)
      modifies this`refunds, this`tokens
      ensures ok == SettleStake(old(Tables()), source, from, receiver, net, cpu, transfer).Ok?
      ensures ok ==> (refunds, tokens) == SettleStake(old(Tables()), source, from, receiver, net, cpu, transfer).value
    {
      hide NetAgainstRefund, Transfer;
      ok := true;
      if source != STAKE_ACCOUNT {
        var netLeft, cpuLeft := net, cpu;
        if net + cpu < 0 || (!transfer && from == receiver) {
          netLeft, cpuLeft := UpdateRefund(from, net, cpu);
        }
        if 0 < netLeft + cpuLeft {
          ok := InlineTransfer(source, STAKE_ACCOUNT, netLeft + cpuLeft);
        }
      }
    }

    method DoDelegate(owner: Name, receiver: Name, net: int, cpu: int, transfer: bool, voteOk: bool) returns (ok: bool)
      modifies this
      ensures ok == ExecDelegate(old(Tables()), owner, receiver, net, cpu, transfer, voteOk).Ok?
      ensures ok ==> Tables() == ExecDelegate(old(Tables()), owner, receiver, net, cpu, transfer, voteOk).value
    {
      hide ChangeBandwidth;
      if cpu < 0 || net < 0 || net + cpu <= 0 || (transfer && owner == receiver) {
        return false;
      }
      ok := ChangeBw(owner, receiver, net, cpu, transfer);
      ok := ok && voteOk;
    }

    method DoUndelegate(owner: Name, receiver: Name, net: int, cpu: int, activated: bool, voteOk: bool)
      returns (ok: bool)
      modifies this
      ensures ok == ExecUndelegate(old(Tables()), owner, receiver, net, cpu, activated, voteOk).Ok?
      ensures ok ==> Tables() == ExecUndelegate(old(Tables()), owner, receiver, net, cpu, activated, voteOk).value
    {
      hide ChangeBandwidth;
      if cpu < 0 || net < 0 || net + cpu <= 0 || !activated {
        return false;
      }
      ok := ChangeBw(owner, receiver, -net, -cpu, false);
      ok := ok && voteOk;
    }

    method DoRefund(owner: Name) returns (ok: bool)
      modifies this
      ensures ok == ClaimRefund(old(Tables()), owner).Ok?
      ensures ok ==> Tables() == ClaimRefund(old(Tables()), owner).value
    {
      if owner !in refunds || (refunds[owner].time + REFUND_DELAY_SECONDS) * MICROS_PER_SECOND > now {
        return false;
      }
      ok := InlineTransfer(STAKE_ACCOUNT, owner, refunds[owner].net + refunds[owner].cpu);
      refunds := refunds - {owner};
    }

    // ---------- RAM fees and the name auction ----------

    method DoRamTrade(receiver: Name, bytes: nat, fee: nat) returns (ok: bool)
      modifies this
      ensures ok == ExecRamTrade(old(Tables()), receiver, bytes, fee).Ok?
      ensures ok ==> Tables() == ExecRamTrade(old(Tables()), receiver, bytes, fee).value
    {
      hide ChannelToRex;
      if receiver !in totals {
        totals := totals[receiver := Totals(0, 0, bytes)];
      } else {
        totals := totals[receiver := totals[receiver].(ram := bytes)];
      }
      ok := true;
      if fee > 0 {
        ok := ChannelFees(RAMFEE_ACCOUNT, fee);
      }
    }

    method DoBidName(bidder: Name, newname: Name, bid: int) returns (ok: bool)
      modifies this
      ensures ok == Bid(old(Tables()), bidder, newname, bid).Ok?
      ensures ok ==> Tables() == Bid(old(Tables()), bidder, newname, bid).value
    {
      hide Transfer;
      if bid <= 0 {
        return false;
      }
      ok := InlineTransfer(bidder, NAMES_ACCOUNT, bid);
      if !ok {
        return;
      }
      if newname in bids {
        var current := bids[newname];
        if current.highBid <= 0 || bid - current.highBid <= current.highBid / 10 || current.bidder == bidder {
          return false;
        }
        var key := (newname, current.bidder);
        if key in bidRefunds {
          bidRefunds := bidRefunds[key := bidRefunds[key] + current.highBid];
        } else {
          bidRefunds := bidRefunds[key := current.highBid];
        }
      }
      bids := bids[newname := NameBid(bidder, bid, now)];
    }

    method DoBidRefund(bidder: Name, newname: Name) returns (ok: bool)
      modifies this
      ensures ok == RefundBid(old(Tables()), bidder, newname).Ok?
      ensures ok ==> Tables() == RefundBid(old(Tables()), bidder, newname).value
    {
      var key := (newname, bidder);
      if key !in bidRefunds {
        return false;
      }
      ok := InlineTransfer(NAMES_ACCOUNT, bidder, bidRefunds[key]);
      bidRefunds := bidRefunds - {key};
    }

    /** The name-auction part of `onblock`. */
    method DoCloseAuction(due: bool)
      modifies this`pool, this`bids
      ensures Tables() == CloseAuction(old(Tables()), due)
    {
      var open := set n | n in bids.Keys && bids[n].highBid > 0;
      if due && open != {} {
        var n := Least(open, ByHighBid(bids));
        var bid := bids[n];
        if now - bid.lastBid > DAY_MICROS {
          if pool.Some? && pool.value.rex > 0 {
            pool := Some(pool.value.(namebidProceeds := pool.value.namebidProceeds + bid.highBid));
          }
          bids := bids[n := bid.(highBid := -bid.highBid)];
        }
      }
    }

    // ---------- dispatch ----------

    predicate OnShares(a: Action) {
      a.Deposit? || a.Withdraw? || a.BuyRex? || a.UnstakeToRex? || a.SellRex? || a.CancelOrder? || a.UpdateRex?
        || a.CloseRex?
    }

    predicate OnLoansAndBuckets(a: Action) {
      a.Rent? || a.FundLoan? || a.DefundLoan? || a.SetRex? || a.RexExec? || a.ConsolidateRex? || a.MvToSavings?
        || a.MvFrSavings?
    }

    /** Actions on funds, shares and orders. */
    method DispatchShares(a: Action) returns (ok: bool)
      requires OnShares(a)
      modifies this
      ensures ok == Exec(old(Tables()), a).Ok?
      ensures ok ==> Tables() == Exec(old(Tables()), a).value
    {
      hide ExecDeposit, ExecWithdraw, ExecBuyRex, ExecUnstakeToRex, ExecSellRex, ExecCancelOrder, ExecRent,
           ExecFundLoan, ExecDefundLoan, ExecUpdateRex, ExecSetRex, RunRex, ExecConsolidate, ExecMvToSavings,
           ExecMvFrSavings, ExecCloseRex, ExecDelegate, ExecUndelegate, ClaimRefund, SyncVoteStake, ExecRamTrade, Bid,
           RefundBid, CloseAuction, SendTokens, Seconds;
      match a
      case Deposit(owner, amount) => ok := DoDeposit(owner, amount);
      case Withdraw(owner, amount, voteOk) => ok := DoWithdraw(owner, amount, voteOk);
      case BuyRex(owner, amount, voteOk) => ok := DoBuyRex(owner, amount, voteOk);
      case UnstakeToRex(owner, receiver, net, cpu, voteOk) => ok := DoUnstakeToRex(owner, receiver, net, cpu, voteOk);
      case SellRex(owner, rex, voteOk) => ok := DoSellRex(owner, rex, voteOk);
      case CancelOrder(owner) => ok := DoCancelOrder(owner);
      case UpdateRex(owner, voteOk) => ok := DoUpdateRex(owner, voteOk);
      case CloseRex(owner, voteOk) => ok := DoCloseRex(owner, voteOk);
    }

    /** Actions on loans, maintenance and maturity buckets. */
    method DispatchLoans(a: Action) returns (ok: bool)
      requires OnLoansAndBuckets(a)
      modifies this
      ensures ok == Exec(old(Tables()), a).Ok?
      ensures ok ==> Tables() == Exec(old(Tables()), a).value
    {
      hide ExecDeposit, ExecWithdraw, ExecBuyRex, ExecUnstakeToRex, ExecSellRex, ExecCancelOrder, ExecRent,
           ExecFundLoan, ExecDefundLoan, ExecUpdateRex, ExecSetRex, RunRex, ExecConsolidate, ExecMvToSavings,
           ExecMvFrSavings, ExecCloseRex, ExecDelegate, ExecUndelegate, ClaimRefund, SyncVoteStake, ExecRamTrade, Bid,
           RefundBid, CloseAuction, SendTokens, Seconds;
      match a
      case Rent(kind, owner, receiver, payment, fund) => ok := DoRent(kind, owner, receiver, payment, fund);
      case FundLoan(kind, owner, id, payment) => ok := DoFundLoan(kind, owner, id, payment);
      case DefundLoan(kind, owner, id, amount) => ok := DoDefundLoan(kind, owner, id, amount);
      case SetRex(balance) => ok := DoSetRex(balance);
      case RexExec(max) => ok := RunRexStep(max);
      case ConsolidateRex(owner, voteOk) => ok := DoConsolidate(owner, voteOk);
      case MvToSavings(owner, rex, voteOk) => ok := DoMvToSavings(owner, rex, voteOk);
      case MvFrSavings(owner, rex, voteOk) => ok := DoMvFrSavings(owner, rex, voteOk);
    }

    /** The staking ledger, the name auction, and the world outside. */
    method DispatchLedger(a: Action) returns (ok: bool)
      requires !OnShares(a) && !OnLoansAndBuckets(a)
      modifies this
      ensures ok == Exec(old(Tables()), a).Ok?
      ensures ok ==> Tables() == Exec(old(Tables()), a).value
    {
      hide ExecDeposit, ExecWithdraw, ExecBuyRex, ExecUnstakeToRex, ExecSellRex, ExecCancelOrder, ExecRent,
           ExecFundLoan, ExecDefundLoan, ExecUpdateRex, ExecSetRex, RunRex, ExecConsolidate, ExecMvToSavings,
           ExecMvFrSavings, ExecCloseRex, ExecDelegate, ExecUndelegate, ClaimRefund, SyncVoteStake, ExecRamTrade, Bid,
           RefundBid, CloseAuction, SendTokens, Seconds;
      match a
      case Tick(micros) =>
        ok := Seconds(now + micros) + 5 * SECONDS_PER_DAY < END_OF_DAYS;
        if ok {
          now := now + micros;
        }
      case Delegate(owner, receiver, net, cpu, transfer, voteOk) =>
        ok := DoDelegate(owner, receiver, net, cpu, transfer, voteOk);
      case Undelegate(owner, receiver, net, cpu, activated, voteOk) =>
        ok := DoUndelegate(owner, receiver, net, cpu, activated, voteOk);
      case Refunding(owner) => ok := DoRefund(owner);
      case VoteProducer(owner) => ok := SyncStake(owner);
      case RamTrade(receiver, bytes, fee) => ok := DoRamTrade(receiver, bytes, fee);
      case BidName(owner, newname, bid, nameOk) =>
        ok := false;
        if nameOk {
          ok := DoBidName(owner, newname, bid);
        }
      case BidRefund(owner, newname) => ok := DoBidRefund(owner, newname);
      case AuctionClose(due) =>
        DoCloseAuction(due);
        ok := true;
      case TransferTokens(owner, to, quantity) => ok := InlineTransfer(owner, to, quantity);
    }

    method Dispatch(a: Action) returns (ok: bool)
      modifies this
      ensures ok == Exec(old(Tables()), a).Ok?
      ensures ok ==> Tables() == Exec(old(Tables()), a).value
    {
      hide Exec;
      if OnShares(a) {
        ok := DispatchShares(a);
      } else if OnLoansAndBuckets(a) {
        ok := DispatchLoans(a);
      } else {
        ok := DispatchLedger(a);
      }
    }

    /** One transaction: the action, or nothing at all. The invariant survives either way. */
    method Push(a: Action) returns (ok: bool)
      modifies this
      ensures ok == Exec(old(Tables()), a).Ok?
      ensures Tables() == Step(old(Tables()), a)
      ensures Inv(old(Tables()), 0) && Admissible(a) ==> Inv(Tables(), 0)
    {
      hide Exec, Inv;
      var saved := Tables();
      ok := Dispatch(a);
      if !ok {
        Rollback(saved);
      }
      if Inv(saved, 0) && Admissible(a) {
        StepKeeps(saved, a);
      }
    }
  }
}
