/** What renting, renewing and closing loans does to the pool, the loans, the funds and the weights:
    stated on the rows and in numbers, whatever functions compute it. */
module LoanEffects {
  import opened Basics
  import opened Tables
  import opened RexPool
  import opened Rex
  import opened Actions
  import opened RexInvariant
  import opened RexProofs
  import opened ActionInv
  import opened RexHistory

  /** What an account can withdraw at once. */
  function Fund(s: State, n: Name): int {
    if n in s.funds then s.funds[n] else 0
  }

  /** Only the fund of `owner` changed, by `amount`. */
  ghost predicate FundMoved(s: State, s1: State, owner: Name, amount: int) {
    forall n: Name :: Fund(s1, n) == Fund(s, n) + (if n == owner then amount else 0)
  }

  /** Only the weight of `receiver` in one resource changed, by `amount`. */
  ghost predicate WeightMoved(s: State, s1: State, kind: Resource, receiver: Name, amount: int) {
    forall r: Name ::
      && NetWeight(s1.totals, r) == NetWeight(s.totals, r) + (if r == receiver && kind == Net then amount else 0)
      && CpuWeight(s1.totals, r) == CpuWeight(s.totals, r) + (if r == receiver && kind == Cpu then amount else 0)
  }

  /** The loans of the other resource. */
  function OtherLoans(s: State, kind: Resource): map<nat, Loan> {
    if kind == Cpu then s.netLoans else s.cpuLoans
  }

  /** Loans are available when shares are outstanding and nobody waits to sell. */
  lemma AvailabilityMeans(s: State)
    requires Inv(s, 0)
    ensures LoansAvailable(s) <==> s.pool.Some? && s.pool.value.rex > 0 && !SomeOpen(s.orders)
  {
    hide Core;
    assert ClockFits(s) by { ClockOf(s); }
    if LoansAvailable(s) {
      NoOpenOrders(s);
    }
  }

  ghost predicate ClockFits(s: State) {
    Maturity.ClockOk(Seconds(s.now))
  }

  lemma ClockOf(s: State)
    requires Inv(s, 0)
    ensures ClockFits(s)
  {
    hide SumOf;
  }

  // ---------- expired loans ----------

  /** The loan is gone: what was lent is back in the pool, the other connector gives way so that
      their product stays, and the creator of the loan has the rest of its balance. */
  ghost predicate LoanClosed(s: State, s1: State, kind: Resource, id: nat)
    requires id in Loans(s, kind)
  {
    var loan := Loans(s, kind)[id];
    && s.pool.Some? && s1.pool.Some? && Loans(s1, kind) == Loans(s, kind) - {id}
    && FundMoved(s, s1, loan.from, loan.balance)
    && WeightMoved(s, s1, kind, loan.receiver, -loan.staked)
    && var p, q := s.pool.value, s1.pool.value;
      && q == p.(unlent := p.unlent + loan.staked, lent := p.lent - loan.staked, rent := q.rent)
      && ProductKept(p.unlent, p.rent, q.unlent, q.rent, q.unlent)
  }

  /** The loan runs for another thirty days, at the price of the pool with `rent` and the tokens it
      had lent back in, paid out of its own balance. */
  ghost predicate LoanRenewed(s: State, s1: State, kind: Resource, id: nat, rent: int)
    requires id in Loans(s, kind)
  {
    var loan := Loans(s, kind)[id];
    && s.pool.Some? && s1.pool.Some? && id in Loans(s1, kind) && s1.funds == s.funds
    && var p, q, loan1 := s.pool.value, s1.pool.value, Loans(s1, kind)[id];
      var unlent := p.unlent + loan.staked;
      && Loans(s1, kind) == Loans(s, kind)[id := loan1]
      && loan1 == loan.(balance := loan.balance - loan.payment, expiration := loan.expiration + 2_592_000_000_000,
                        staked := loan1.staked)
      && loan1.staked > loan.payment
      && q == p.(unlent := unlent - loan1.staked + loan.payment, lent := p.lent - loan.staked + loan1.staked,
                 rent := rent + loan.payment, lendable := p.lendable + loan.payment)
      && ProductKept(rent, unlent, q.rent, unlent - loan1.staked, q.rent)
      && WeightMoved(s, s1, kind, loan.receiver, loan1.staked - loan.staked)
  }

  /** An expired loan is renewed if and only if loans are available, its balance covers its payment,
      and the payment rents more than itself; else it is closed. `rent` is the connector once the
      tokens it had lent are back. */
  lemma ExpireLoanMoves(s: State, kind: Resource, id: nat) returns (rent: int)
    requires Inv(s, 0) && id in Loans(s, kind) && Loans(s, kind)[id].expiration <= s.now
    ensures ExpireLoan(s, kind, id).Ok? && s.pool.Some?
    ensures var s1 := ExpireLoan(s, kind, id).value; var loan := Loans(s, kind)[id]; var p := s.pool.value;
      && ProductKept(p.unlent, p.rent, p.unlent + loan.staked, rent, p.unlent + loan.staked)
      && (if p.rex > 0 && !SomeOpen(s.orders) && loan.payment <= loan.balance
             && (loan.payment + 1) * (rent + loan.payment) <= loan.payment * (p.unlent + loan.staked)
          then LoanRenewed(s, s1, kind, id, rent) else LoanClosed(s, s1, kind, id))
      && OtherLoans(s1, kind) == OtherLoans(s, kind) && s1.orders == s.orders && s1.balances == s.balances
      && s1.tokens == s.tokens && s1.log == s.log
  {
    hide Inv, RemoveLoan, BancorOutput, RenewLoan, CloseLoan, ProductKept, LoansAvailable, SomeOpen, LoanClosed,
         LoanRenewed;
    var loan := Loans(s, kind)[id];
    ExpireLoanKeeps(s, kind, id);
    LoanPool(s, kind, id);
    AvailabilityMeans(s);
    var pool := RemoveLoan(s.pool.value, loan.staked);
    rent := pool.rent;
    var rented := BancorOutput(pool.rent, pool.unlent, loan.payment);
    RentsMore(pool, loan.payment);
    var s1 := s.(pool := Some(pool));
    assert LoansAvailable(s1) == LoansAvailable(s) by { SameAvailability(s, s1); }
    if Renews(s1, loan, rented) {
      RenewalMoves(s, kind, id);
    } else {
      ClosureMoves(s, kind, id);
    }
  }

  lemma SameAvailability(s: State, s1: State)
    requires s.pool.Some? && s1.pool.Some? && s1.pool.value.rex == s.pool.value.rex && s1.orders == s.orders
    ensures LoansAvailable(s1) == LoansAvailable(s)
  {
  }

  lemma LoanPool(s: State, kind: Resource, id: nat)
    requires Inv(s, 0) && id in Loans(s, kind)
    ensures var loan := Loans(s, kind)[id];
      && s.pool.Some? && PoolOk(s.pool.value) && 0 < loan.staked <= s.pool.value.lent && loan.payment > 0
      && loan.balance >= 0 && loan.from in s.funds
      && var p, q := s.pool.value, RemoveLoan(s.pool.value, loan.staked);
        && q == p.(unlent := p.unlent + loan.staked, lent := p.lent - loan.staked, rent := q.rent)
        && ProductKept(p.unlent, p.rent, q.unlent, q.rent, q.unlent) && PoolOk(q)
  {
    hide SumOf, BancorOutput, ProductKept;
    LoanWithinTotals(s, kind, id);
    RemoveLoanKeepsPool(s.pool.value, Loans(s, kind)[id].staked);
  }

  /** The payment rents more than itself. */
  lemma RentsMore(pool: Pool, payment: int)
    requires PoolOk(pool) && payment > 0
    ensures payment < BancorOutput(pool.rent, pool.unlent, payment)
            <==> (payment + 1) * (pool.rent + payment) <= payment * pool.unlent
  {
    hide BancorOutput;
    BancorBounds(pool.rent, pool.unlent, payment);
    var out := BancorOutput(pool.rent, pool.unlent, payment);
    if payment + 1 <= out {
      Arithmetic.MulMono(payment + 1, out, pool.rent + payment);
    } else {
      Arithmetic.MulMono(out + 1, payment + 1, pool.rent + payment);
    }
  }

  lemma WeightsOf(s: State, s1: State, kind: Resource, receiver: Name, delta: int)
    requires NetWeight(s.totals, receiver) + (if kind == Net then delta else 0) >= 0
    requires CpuWeight(s.totals, receiver) + (if kind == Cpu then delta else 0) >= 0
    requires UpdateTotals(s.totals, receiver, if kind == Net then delta else 0, if kind == Cpu then delta else 0)
          == Ok(s1.totals)
    ensures WeightMoved(s, s1, kind, receiver, delta)
  {
    hide NetWeight, CpuWeight, UpdateTotals;
    UpdateTotalsEffect(s.totals, receiver, if kind == Net then delta else 0, if kind == Cpu then delta else 0);
  }

  lemma RenewalMoves(s: State, kind: Resource, id: nat)
    requires Inv(s, 0) && id in Loans(s, kind) && s.pool.Some?
    requires var loan := Loans(s, kind)[id]; var pool := RemoveLoan(s.pool.value, loan.staked);
      Renews(s.(pool := Some(pool)), loan, BancorOutput(pool.rent, pool.unlent, loan.payment))
    ensures var loan := Loans(s, kind)[id]; var pool := RemoveLoan(s.pool.value, loan.staked);
      var s1 := RenewLoan(s.(pool := Some(pool)), kind, id, BancorOutput(pool.rent, pool.unlent, loan.payment));
      s1.Ok? && LoanRenewed(s, s1.value, kind, id, pool.rent)
  {
    hide Core, BancorOutput, RenewLoan, ProductKept, UpdateTotals, WeightMoved, LoansAvailable, RemoveLoan, PoolOk;
    LoanPool(s, kind, id);
    var loan := Loans(s, kind)[id];
    var pool := RemoveLoan(s.pool.value, loan.staked);
    var rented := BancorOutput(pool.rent, pool.unlent, loan.payment);
    AvailablePool(s.(pool := Some(pool)));
    AddLoanKeepsPool(pool, loan.payment, false);
    LoanWithinTotals(s, kind, id);
    var totals := RenewTotals(s, kind, id, Renewed(loan, rented));
    RenewOutcome(s.(pool := Some(pool)), kind, id, rented, totals);
    var s1 := RenewLoan(s.(pool := Some(pool)), kind, id, rented).value;
    WeightsOf(s, s1, kind, loan.receiver, rented - loan.staked);
    LoanTable(s1, s, kind, Loans(s, kind)[id := Renewed(loan, rented)]);
  }

  lemma LoanTable(s1: State, s: State, kind: Resource, loans: map<nat, Loan>)
    requires s1.cpuLoans == WithLoans(s, kind, loans).cpuLoans && s1.netLoans == WithLoans(s, kind, loans).netLoans
    ensures Loans(s1, kind) == loans && OtherLoans(s1, kind) == OtherLoans(s, kind)
  {
    if kind == Cpu {
      assert s1.cpuLoans == loans && s1.netLoans == s.netLoans;
    } else {
      assert s1.netLoans == loans && s1.cpuLoans == s.cpuLoans;
    }
  }

  lemma ClosureMoves(s: State, kind: Resource, id: nat)
    requires Inv(s, 0) && id in Loans(s, kind) && s.pool.Some?
    ensures var loan := Loans(s, kind)[id]; var pool := RemoveLoan(s.pool.value, loan.staked);
      var s1 := CloseLoan(s.(pool := Some(pool)), kind, id);
      s1.Ok? && LoanClosed(s, s1.value, kind, id)
  {
    hide Core, BancorOutput, CloseLoan, ProductKept, UpdateTotals, WeightMoved, RemoveLoan, PoolOk;
    LoanPool(s, kind, id);
    var loan := Loans(s, kind)[id];
    var pool := RemoveLoan(s.pool.value, loan.staked);
    LoanWithinTotals(s, kind, id);
    var totals := CloseTotals(s, kind, id);
    CloseOutcome(s.(pool := Some(pool)), kind, id, Refunded(s.funds, loan), totals);
    var s1 := CloseLoan(s.(pool := Some(pool)), kind, id).value;
    WeightsOf(s, s1, kind, loan.receiver, -loan.staked);
    LoanTable(s1, s, kind, Loans(s, kind) - {id});
  }

  ghost function Reached(loans: map<nat, Loan>, loans1: map<nat, Loan>): (reached: set<nat>)
    ensures reached <= loans.Keys
  {
    set id | id in loans && !(id in loans1 && loans1[id] == loans[id])
  }

  /** Which loans a pass of `max` turns reaches: only expired ones, those that expire first before the
      others, the lower number between equals, and no more than `max`. No loan is added, and none is
      made to expire earlier. */
  ghost predicate LoansServed(loans: map<nat, Loan>, loans1: map<nat, Loan>, now: nat, max: nat) {
    var reached := Reached(loans, loans1);
    && loans1.Keys <= loans.Keys && (forall id | id in loans1 :: loans1[id].expiration >= loans[id].expiration)
    && |reached| <= max && (forall id | id in reached :: loans[id].expiration <= now)
    && EarliestFirst(loans, reached)
  }

  ghost predicate EarliestFirst(loans: map<nat, Loan>, reached: set<nat>)
    requires reached <= loans.Keys
  {
    forall id, j | id in reached && j in loans && j !in reached ::
      loans[id].expiration < loans[j].expiration || (loans[id].expiration == loans[j].expiration && id < j)
  }

  lemma {:induction false} RunLoansServe(s: State, kind: Resource, max: nat)
    requires Inv(s, 0) && s.pool.Some?
    ensures RunLoans(s, kind, max).Ok?
    ensures var s1 := RunLoans(s, kind, max).value;
      && LoansServed(Loans(s, kind), Loans(s1, kind), s.now, max) && OtherLoans(s1, kind) == OtherLoans(s, kind)
      && s1.orders == s.orders && s1.balances == s.balances && s1.tokens == s.tokens && s1.log == s.log
    decreases max
  {
    hide Inv, ExpireLoan, LoansServed, Loans, OtherLoans, LoanRenewed, LoanClosed, ProductKept, SomeOpen;
    var loans := Loans(s, kind);
    if max == 0 || loans.Keys == {} {
      NoneServed(loans, s.now, max);
    } else {
      var id := Least(loans.Keys, ByExpiration(loans));
      if loans[id].expiration > s.now {
        NoneServed(loans, s.now, max);
      } else {
        var rent := ExpireLoanMoves(s, kind, id);
        ExpireLoanKeeps(s, kind, id);
        var s1 := ExpireLoan(s, kind, id).value;
        LoanChanged(s, s1, kind, id, rent);
        RunLoansServe(s1, kind, max - 1);
        MoreServed(loans, Loans(s1, kind), Loans(RunLoans(s1, kind, max - 1).value, kind), s.now, max, id);
      }
    }
  }

  lemma NoneServed(loans: map<nat, Loan>, now: nat, max: nat)
    ensures LoansServed(loans, loans, now, max)
  {
    assert Reached(loans, loans) == {};
  }

  lemma LoanChanged(s: State, s1: State, kind: Resource, id: nat, rent: int)
    requires id in Loans(s, kind)
    requires LoanRenewed(s, s1, kind, id, rent) || LoanClosed(s, s1, kind, id)
    ensures Loans(s1, kind).Keys <= Loans(s, kind).Keys
    ensures forall j | j in Loans(s, kind) && j != id :: j in Loans(s1, kind) && Loans(s1, kind)[j] == Loans(s, kind)[j]
    ensures id in Loans(s1, kind) ==> Loans(s1, kind)[id].expiration > Loans(s, kind)[id].expiration
  {
    hide ProductKept, WeightMoved, FundMoved;
  }

  lemma MoreServed(
    loans: map<nat, Loan>, loans1: map<nat, Loan>, loans2: map<nat, Loan>, now: nat, max: nat, id: nat)
    requires id in loans && loans[id].expiration <= now && max > 0 && LoansServed(loans1, loans2, now, max - 1)
    requires IsLeast(loans.Keys, ByExpiration(loans), id) && loans1.Keys <= loans.Keys
    requires forall j | j in loans && j != id :: j in loans1 && loans1[j] == loans[j]
    requires id in loans1 ==> loans1[id].expiration > loans[id].expiration
    ensures LoansServed(loans, loans2, now, max)
  {
    hide Reached, EarliestFirst, ByExpiration, IsLeast;
    var reached, reached1 := Reached(loans, loans2), Reached(loans1, loans2);
    ReachedMore(loans, loans1, loans2, id);
    SizeWithin(reached - {id}, reached1);
    EarliestMore(loans, loans1, reached, reached1, id);
  }

  lemma EarliestMore(loans: map<nat, Loan>, loans1: map<nat, Loan>, reached: set<nat>, reached1: set<nat>, id: nat)
    requires reached <= loans.Keys && reached1 <= loans1.Keys && EarliestFirst(loans1, reached1)
    requires IsLeast(loans.Keys, ByExpiration(loans), id)
    requires forall j | j in loans && j != id :: j in loans1 && loans1[j] == loans[j]
    requires id in reached && forall j | j in loans && j != id :: j in reached <==> j in reached1
    ensures EarliestFirst(loans, reached)
  {
    forall i, j | i in reached && j in loans && j !in reached
      ensures loans[i].expiration < loans[j].expiration || (loans[i].expiration == loans[j].expiration && i < j)
    {
      assert Before(ByExpiration(loans), id, j);
    }
  }

  /** A turn for `id`, and the turns after it, reach `id` and what those reach. */
  lemma ReachedMore(loans: map<nat, Loan>, loans1: map<nat, Loan>, loans2: map<nat, Loan>, id: nat)
    requires id in loans && loans1.Keys <= loans.Keys && loans2.Keys <= loans1.Keys
    requires forall j | j in loans && j != id :: j in loans1 && loans1[j] == loans[j]
    requires id in loans1 ==> loans1[id].expiration > loans[id].expiration
    requires forall j | j in loans2 :: loans2[j].expiration >= loans1[j].expiration
    ensures id in Reached(loans, loans2)
    ensures forall j | j in loans && j != id :: j in Reached(loans, loans2) <==> j in Reached(loans1, loans2)
  {
  }

  lemma SizeWithin(a: set<nat>, b: set<nat>)
    requires a <= b
    ensures |a| <= |b|
  {
    assert b == a + (b - a);
    assert |b| == |a| + |b - a|;
  }

  // ---------- new loans ----------

  /** `rentcpu` and `rentnet`, after maintenance has led to `s0`: the renter pays the fee and what
      it sets aside, and receives for thirty days what keeps the product of the connectors. */
  lemma RentMoves(s: State, kind: Resource, owner: Name, receiver: Name, payment: int, fund: int)
    requires Inv(s, 0) && Exec(s, Rent(kind, owner, receiver, payment, fund)).Ok?
    ensures RunRex(s, 2).Ok?
    ensures var s0 := RunRex(s, 2).value; var s1 := Exec(s, Rent(kind, owner, receiver, payment, fund)).value;
      && payment > 0 && fund >= 0 && s0.pool.Some? && s1.pool.Some? && s0.pool.value.rex > 0 && !SomeOpen(s0.orders)
      && Fund(s0, owner) >= payment + fund && FundMoved(s0, s1, owner, -payment - fund)
      && var p, q := s0.pool.value, s1.pool.value; var id := p.loanNum + 1; var rented := q.lent - p.lent;
        && id !in Loans(s0, kind) && OtherLoans(s1, kind) == OtherLoans(s0, kind)
        && Loans(s1, kind)
           == Loans(s0, kind)[id := Loan(owner, receiver, payment, fund, rented, s.now + 2_592_000_000_000)]
        && rented > payment
        && q == p.(unlent := p.unlent - rented + payment, lent := p.lent + rented, rent := p.rent + payment,
                   lendable := p.lendable + payment, loanNum := id)
        && ProductKept(p.rent, p.unlent, q.rent, p.unlent - rented, q.rent)
        && WeightMoved(s0, s1, kind, receiver, rented)
        && s1.orders == s0.orders && s1.balances == s0.balances && s1.tokens == s0.tokens && s1.log == s0.log
  {
    hide Core, RunRex, CreateLoan, OrdersInv, PoolRuns, ProductKept, WeightMoved, LoansAvailable, SomeOpen, PriceKept,
         PoolOk;
    PoolPresent(s, 2);
    RunRexKeeps(s, 2);
    var s0 := RunRex(s, 2).value;
    AvailabilityMeans(s0);
    RentStages(s, kind, owner, receiver, payment, fund);
    FromFundKeeps(s0, owner, payment + fund, 0);
    var s2 := FromFund(s0, owner, payment + fund).value;
    NewLoanMoves(s0, s2, kind, owner, receiver, payment, fund);
    var s1 := Exec(s, Rent(kind, owner, receiver, payment, fund)).value;
    assert FundMoved(s0, s1, owner, -payment - fund);
    SameWeights(s0, s2, s1, kind, receiver, s1.pool.value.lent - s0.pool.value.lent);
  }

  lemma SameWeights(s0: State, s2: State, s1: State, kind: Resource, receiver: Name, delta: int)
    requires s2.totals == s0.totals && WeightMoved(s2, s1, kind, receiver, delta)
    ensures WeightMoved(s0, s1, kind, receiver, delta)
  {
    hide NetWeight, CpuWeight;
  }

  lemma RentStages(s: State, kind: Resource, owner: Name, receiver: Name, payment: int, fund: int)
    requires RunRex(s, 2).Ok? && Exec(s, Rent(kind, owner, receiver, payment, fund)).Ok?
    ensures var s0 := RunRex(s, 2).value;
      && LoansAvailable(s0) && payment > 0 && fund >= 0 && FromFund(s0, owner, payment + fund).Ok?
      && Exec(s, Rent(kind, owner, receiver, payment, fund))
         == CreateLoan(FromFund(s0, owner, payment + fund).value, kind, owner, receiver, payment, fund)
  {
    hide RunRex, CreateLoan, LoansAvailable, FromFund;
  }

  lemma NewLoanMoves(
    s0: State, s2: State, kind: Resource, owner: Name, receiver: Name, payment: int, fund: int)
    requires Inv(s0, 0) && Core(s2, payment + fund) && s2 == s0.(funds := s2.funds) && s0.pool.Some?
    requires s0.pool.value.rex > 0 && payment > 0 && CreateLoan(s2, kind, owner, receiver, payment, fund).Ok?
    ensures var s1 := CreateLoan(s2, kind, owner, receiver, payment, fund).value;
      && s1.pool.Some?
      && var p, q := s0.pool.value, s1.pool.value; var id := p.loanNum + 1; var rented := q.lent - p.lent;
        && id !in Loans(s0, kind) && OtherLoans(s1, kind) == OtherLoans(s0, kind)
        && Loans(s1, kind)
           == Loans(s0, kind)[id := Loan(owner, receiver, payment, fund, rented, s0.now + 2_592_000_000_000)]
        && rented > payment
        && q == p.(unlent := p.unlent - rented + payment, lent := p.lent + rented, rent := p.rent + payment,
                   lendable := p.lendable + payment, loanNum := id)
        && ProductKept(p.rent, p.unlent, q.rent, p.unlent - rented, q.rent)
        && WeightMoved(s2, s1, kind, receiver, rented)
        && s1 == s2.(pool := s1.pool, cpuLoans := s1.cpuLoans, netLoans := s1.netLoans, totals := s1.totals)
  {
    hide Core, BancorOutput, CreateLoan, UpdateTotals, ProductKept, WeightMoved, PriceKept, NetWeight, CpuWeight;
    InvPool(s2, payment + fund);
    var p := s0.pool.value;
    AddLoanKeepsPool(p, payment, true);
    FreshLoan(s0, kind);
    var rented := BancorOutput(p.rent, p.unlent, payment);
    var loan := Loan(owner, receiver, payment, fund, rented, s0.now + LOAN_TERM);
    var totals := NewLoanTotals(s2, kind, p.loanNum + 1, loan, payment + fund);
    CreateLoanOutcome(s2, kind, owner, receiver, payment, fund, totals);
    var s1 := CreateLoan(s2, kind, owner, receiver, payment, fund).value;
    WeightsNonNegative(s2, receiver, payment + fund);
    WeightsOf(s2, s1, kind, receiver, rented);
    LoanTable(s1, s2, kind, Loans(s2, kind)[p.loanNum + 1 := loan]);
  }

  lemma FreshLoan(s: State, kind: Resource)
    requires Inv(s, 0) && s.pool.Some?
    ensures s.pool.value.loanNum + 1 !in Loans(s, kind)
  {
    hide SumOf;
  }
}
