/** What holds between actions in every reachable state of the exchange and the ledger. */
module RexInvariant {
  import opened Basics
  import opened Tables
  import opened Ledger
  import opened Maturity
  import opened RexPool

  // ---------- columns ----------

  function Whole(amount: int): int { amount }
  function Staked(l: Loan): int { l.staked }
  function LoanBalance(l: Loan): int { l.balance }
  function Shares(rb: RexBalance): int { rb.rex }
  function Proceeds(o: Order): int { o.proceeds }
  function Delegated(d: Delegation): int { d.net + d.cpu }
  function Pending(r: Refund): int { r.net + r.cpu }
  function OpenBid(b: NameBid): int { Max(0, b.highBid) }
  function NetTo(receiver: Name): Delegation -> int { (d: Delegation) => if d.to == receiver then d.net else 0 }
  function CpuTo(receiver: Name): Delegation -> int { (d: Delegation) => if d.to == receiver then d.cpu else 0 }
  function LentTo(receiver: Name): Loan -> int { (l: Loan) => if l.receiver == receiver then l.staked else 0 }

  // ---------- histories ----------

  /** REX received by `owner` up to second `t`. */
  function ReceivedBy(log: seq<Event>, owner: Name, t: int): int {
    if log == [] then 0
    else
      var e := log[|log| - 1];
      ReceivedBy(log[..|log| - 1], owner, t) + (if e.Bought? && e.owner == owner && e.at <= t then e.rex else 0)
  }

  /** REX of `owner` sold, at once or from the queue, up to second `t`. */
  function SoldBy(log: seq<Event>, owner: Name, t: int): int {
    if log == [] then 0
    else
      var e := log[|log| - 1];
      SoldBy(log[..|log| - 1], owner, t) + (if e.Sold? && e.owner == owner && e.at <= t then e.rex else 0)
  }

  const LOCK_UP: nat := 4 * 86_400

  /** The last second of the latest day that had ended four days before `x`. */
  function SellableSince(x: nat): int {
    DayStart(x) - LOCK_UP - 1
  }

  // ---------- the parts of the invariant ----------

  function Row(balances: map<Name, RexBalance>, owner: Name): RexBalance {
    if owner in balances then balances[owner] else RexBalance(0, 0, 0, [])
  }

  /** The pool's totals are the sums over the loans and the balances. */
  ghost predicate PoolInv(pool: Option<Pool>, balances: map<Name, RexBalance>, cpu: map<nat, Loan>,
      net: map<nat, Loan>) {
    match pool
    case None => balances == map[] && cpu == map[] && net == map[]
    case Some(p) =>
      && PoolOk(p)
      && p.lent == SumOf(cpu, Staked) + SumOf(net, Staked)
      && p.rex == SumOf(balances, Shares)
      && (p.rex == 0 ==> p.namebidProceeds == 0)
  }

  function Lendable(pool: Option<Pool>): int {
    if pool.Some? then pool.value.lendable else 0
  }

  /** Everything the REX account owes: user funds, the pool, loan balances, and the proceeds of
      filled orders that were not claimed yet. */
  ghost function Liabilities(s: State): int {
    SumOf(s.funds, Whole) + Lendable(s.pool) + SumOf(s.cpuLoans, LoanBalance) + SumOf(s.netLoans, LoanBalance)
    + SumOf(s.orders, Proceeds)
  }

  /** The REX account holds what it owes and `slack`, which is 0 between actions. */
  ghost predicate Solvent(s: State, slack: int) {
    Holds(s.tokens, REX_ACCOUNT) == Liabilities(s) + slack
  }

  ghost predicate FundsInv(funds: map<Name, int>) {
    forall n | n in funds :: funds[n] >= 0
  }

  function LoanNum(pool: Option<Pool>): nat {
    if pool.Some? then pool.value.loanNum else 0
  }

  /** Loans are positive, end within a term from now, and have a fund to be refunded into. */
  ghost predicate LoansInv(loans: map<nat, Loan>, funds: map<Name, int>, now: nat, loanNum: nat) {
    forall id | id in loans ::
      && id <= loanNum && loans[id].payment > 0 && loans[id].balance >= 0 && loans[id].staked > 0
      && loans[id].from in funds && loans[id].expiration <= now + LOAN_TERM
  }

  ghost predicate BalancesInv(balances: map<Name, RexBalance>, now: nat) {
    forall n | n in balances :: RowOk(balances[n], Seconds(now))
  }

  /** No loan outlives an open order by more than the loan term counted from the order. */
  ghost predicate Deadlines(orders: map<Name, Order>, loans: map<nat, Loan>) {
    forall n, id | n in orders && orders[n].isOpen && id in loans :: loans[id].expiration <= orders[n].time + LOAN_TERM
  }

  function NetWeight(totals: map<Name, Totals>, receiver: Name): int {
    if receiver in totals then totals[receiver].net else 0
  }

  function CpuWeight(totals: map<Name, Totals>, receiver: Name): int {
    if receiver in totals then totals[receiver].cpu else 0
  }

  /** A receiver's weights are the delegations and loans to it. */
  ghost predicate ResourcesInv(
    totals: map<Name, Totals>, delegations: map<(Name, Name), Delegation>, cpu: map<nat, Loan>, net: map<nat, Loan>)
  {
    && (forall r: Name :: NetWeight(totals, r) == SumOf(delegations, NetTo(r)) + SumOf(net, LentTo(r)))
    && (forall r: Name :: CpuWeight(totals, r) == SumOf(delegations, CpuTo(r)) + SumOf(cpu, LentTo(r)))
  }

  ghost predicate DelegationsInv(delegations: map<(Name, Name), Delegation>) {
    forall k | k in delegations :: delegations[k].to == k.1 && delegations[k].net >= 0 && delegations[k].cpu >= 0
  }

  ghost predicate RefundsInv(refunds: map<Name, Refund>) {
    forall n | n in refunds :: refunds[n].net >= 0 && refunds[n].cpu >= 0 && !refunds[n].IsEmpty()
  }

  /** The stake account holds exactly the delegations and the pending refunds. */
  ghost predicate StakeInv(tokens: map<Name, nat>, delegations: map<(Name, Name), Delegation>,
      refunds: map<Name, Refund>) {
    Holds(tokens, STAKE_ACCOUNT) == SumOf(delegations, Delegated) + SumOf(refunds, Pending)
  }

  function NamebidProceeds(pool: Option<Pool>): int {
    if pool.Some? then pool.value.namebidProceeds else 0
  }

  /** The names account can pay all bid refunds, all open bids and what the pool is to receive. */
  ghost predicate NamesInv(tokens: map<Name, nat>, bids: map<Name, NameBid>, bidRefunds: map<(Name, Name), int>,
      pool: Option<Pool>) {
    && Holds(tokens, NAMES_ACCOUNT) >= SumOf(bids, OpenBid) + SumOf(bidRefunds, Whole) + NamebidProceeds(pool)
    && (forall k | k in bidRefunds :: bidRefunds[k] >= 0)
  }

  /** What `owner` holds is what it received less what it sold; and by any second `x` at most what
      was received until the end of a day four days before has been sold or could be sold. */
  ghost predicate AccountLocked(log: seq<Event>, owner: Name, rb: RexBalance, second: nat) {
    && rb.rex + SoldBy(log, owner, END_OF_DAYS) == ReceivedBy(log, owner, END_OF_DAYS)
    && (forall x | second <= x < END_OF_DAYS ::
          Exposure(rb, x) + SoldBy(log, owner, END_OF_DAYS) <= ReceivedBy(log, owner, SellableSince(x)))
    && (forall t | 0 <= t < END_OF_DAYS :: SoldBy(log, owner, t) <= ReceivedBy(log, owner, SellableSince(t)))
  }

  ghost predicate LogInv(log: seq<Event>, second: nat) {
    forall i | 0 <= i < |log| :: log[i].at <= second && log[i].rex >= 0
  }

  ghost predicate LockUpInv(log: seq<Event>, balances: map<Name, RexBalance>, second: nat) {
    && LogInv(log, second)
    && (forall n: Name :: AccountLocked(log, n, Row(balances, n), second))
  }

  /** Every open order is covered by matured REX of its owner. */
  ghost predicate OrderOk(o: Order, balances: map<Name, RexBalance>, owner: Name, now: nat) {
    if o.isOpen then
      o.proceeds == 0 && o.time <= now && owner in balances && 0 < o.requested <= balances[owner].matured
    else o.proceeds >= 0
  }

  ghost predicate OrdersInv(orders: map<Name, Order>, balances: map<Name, RexBalance>, now: nat) {
    forall n | n in orders :: OrderOk(orders[n], balances, n, now)
  }

  /** All but the coverage of open orders, with `slack` tokens on their way. */
  ghost predicate Core(s: State, slack: int) {
    && ClockOk(Seconds(s.now))
    && PoolInv(s.pool, s.balances, s.cpuLoans, s.netLoans)
    && Solvent(s, slack)
    && FundsInv(s.funds)
    && LoansInv(s.cpuLoans, s.funds, s.now, LoanNum(s.pool)) && LoansInv(s.netLoans, s.funds, s.now, LoanNum(s.pool))
    && BalancesInv(s.balances, s.now)
    && Deadlines(s.orders, s.cpuLoans) && Deadlines(s.orders, s.netLoans)
    && ResourcesInv(s.totals, s.delegations, s.cpuLoans, s.netLoans)
    && DelegationsInv(s.delegations) && RefundsInv(s.refunds)
    && StakeInv(s.tokens, s.delegations, s.refunds)
    && NamesInv(s.tokens, s.bids, s.bidRefunds, s.pool)
    && LockUpInv(s.log, s.balances, Seconds(s.now))
  }

  ghost predicate Inv(s: State, slack: int) {
    Core(s, slack) && OrdersInv(s.orders, s.balances, s.now)
  }

  /** The chain before the first REX purchase, delegation or bid. */
  ghost predicate Genesis(s: State) {
    && ClockOk(Seconds(s.now))
    && s.pool == None && s.funds == map[] && s.balances == map[] && s.cpuLoans == map[] && s.netLoans == map[]
    && s.orders == map[] && s.delegations == map[] && s.refunds == map[]
    && s.bids == map[] && s.bidRefunds == map[] && s.log == []
    && (forall n | n in s.totals :: s.totals[n].net == 0 && s.totals[n].cpu == 0)
    && Holds(s.tokens, REX_ACCOUNT) == 0 && Holds(s.tokens, STAKE_ACCOUNT) == 0
  }

  lemma GenesisInv(s: State)
    requires Genesis(s)
    ensures Inv(s, 0)
  {
  }
}
