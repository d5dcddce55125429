/** The resource exchange: its internal steps, as functions of the tables. */
module Rex {
  import opened Basics
  import opened Tables
  import opened Ledger
  import opened Maturity
  import opened RexPool

  // ---------- funds and tokens ----------

  function SendTokens(s: State, from: Name, to: Name, quantity: int): Result<State> {
    var tokens :- Transfer(s.tokens, from, to, quantity);
    Ok(s.(tokens := tokens))
  }

  function FromFund(s: State, owner: Name, amount: int): Result<State> {
    if amount <= 0 then Abort else
    :- Check(owner in s.funds);
    :- Check(amount <= s.funds[owner]);
    Ok(s.(funds := s.funds[owner := s.funds[owner] - amount]))
  }

  function ToFund(s: State, owner: Name, amount: int): Result<State> {
    if amount <= 0 then Abort else
    Ok(s.(funds := Credit(s.funds, owner, amount)))
  }

  function Credit(funds: map<Name, int>, owner: Name, amount: int): map<Name, int> {
    funds[owner := (if owner in funds then funds[owner] else 0) + amount]
  }

  // ---------- availability ----------

  predicate RexAvailable(s: State) {
    s.pool.Some? && s.pool.value.rex > 0
  }

  /** The head of the sell queue: open orders by time, then filled ones. */
  function FirstOrder(orders: map<Name, Order>): Option<Name> {
    if orders.Keys == {} then None else Some(Least(orders.Keys, ByTime(orders)))
  }

  /** The order that follows `owner`'s in the queue. */
  function NextOrder(orders: map<Name, Order>, owner: Name): Option<Name> {
    var later := set n | n in orders.Keys && Before(ByTime(orders), owner, n);
    if later == {} then None else Some(Least(later, ByTime(orders)))
  }

  predicate LoansAvailable(s: State) {
    && RexAvailable(s)
    && match FirstOrder(s.orders)
       case None => true
       case Some(owner) => owner in s.orders && !s.orders[owner].isOpen
  }

  // ---------- rented resources ----------

  /** A receiver's CPU and NET weights change together with what is staked or lent to it. */
  function UpdateTotals(totals: map<Name, Totals>, receiver: Name, net: int, cpu: int): Result<map<Name, Totals>> {
    if net == 0 && cpu == 0 then Ok(totals)
    else
      :- Check(receiver !in totals ==> 0 <= net && 0 <= cpu);
      var row := if receiver in totals then totals[receiver] else Totals(0, 0, 0);
      var row1 := row.(net := row.net + net, cpu := row.cpu + cpu);
      :- Check(0 <= row1.net);
      :- Check(0 <= row1.cpu);
      Ok(if row1.IsEmpty() then totals - {receiver} else totals[receiver := row1])
  }

  function UpdateResourceLimits(s: State, kind: Resource, receiver: Name, delta: int): Result<State> {
    var totals :- UpdateTotals(s.totals, receiver, if kind == Net then delta else 0, if kind == Cpu then delta else 0);
    Ok(s.(totals := totals))
  }

  // ---------- fees channelled to the pool ----------

  function ChannelToRex(s: State, from: Name, amount: int): Result<State> {
    if RexAvailable(s) then
      SendTokens(s.(pool := Some(AddFee(s.pool.value, amount))), from, REX_ACCOUNT, amount)
    else Ok(s)
  }

  // ---------- maintenance ----------

  predicate Renews(s: State, loan: Loan, rented: int) {
    loan.payment <= loan.balance && loan.payment < rented && LoansAvailable(s)
  }

  function Renewed(loan: Loan, rented: int): Loan {
    loan.(staked := rented, expiration := loan.expiration + LOAN_TERM, balance := loan.balance - loan.payment)
  }

  /** Renews loan `id` at the current price, out of its own balance. */
  function RenewLoan(s: State, kind: Resource, id: nat, rented: int): Result<State>
    requires id in Loans(s, kind) && s.pool.Some?
  {
    var loan := Loans(s, kind)[id];
    var s1 := s.(pool := Some(AddLoan(s.pool.value, loan.payment, rented, false)));
    UpdateResourceLimits(WithLoans(s1, kind, Loans(s, kind)[id := Renewed(loan, rented)]), kind, loan.receiver,
      rented - loan.staked)
  }

  /** Closes loan `id` and refunds what is left of its balance. */
  function CloseLoan(s: State, kind: Resource, id: nat): Result<State>
    requires id in Loans(s, kind)
  {
    var loan := Loans(s, kind)[id];
    var s1 :- (if loan.balance > 0 then ToFund(s, loan.from, loan.balance) else Ok(s));
    UpdateResourceLimits(WithLoans(s1, kind, Loans(s, kind) - {id}), kind, loan.receiver, -loan.staked)
  }

  /** Closes or renews the expired loan `id`. */
  function ExpireLoan(s: State, kind: Resource, id: nat): Result<State>
    requires id in Loans(s, kind)
  {
    if s.pool.None? then Abort else
    var loan := Loans(s, kind)[id];
    var pool := RemoveLoan(s.pool.value, loan.staked);
    var s1 := s.(pool := Some(pool));
    var rented := BancorOutput(pool.rent, pool.unlent, loan.payment);
    if Renews(s1, loan, rented) then RenewLoan(s1, kind, id, rented) else CloseLoan(s1, kind, id)
  }

  /** Processes at most `max` expired loans of one kind, in order of expiration. */
  function RunLoans(s: State, kind: Resource, max: nat): Result<State>
    decreases max
  {
    var loans := Loans(s, kind);
    if max == 0 || loans.Keys == {} then Ok(s)
    else
      var id := Least(loans.Keys, ByExpiration(loans));
      if loans[id].expiration > s.now then Ok(s)
      else
        var s1 :- ExpireLoan(s, kind, id);
        RunLoans(s1, kind, max - 1)
  }

  datatype Fill = Unfilled | Filled(s: State, proceeds: int, stakeChange: int)

  /** Redeems `rex` of `owner` if the pool has enough tokens that are not lent. */
  function FillOrder(s: State, owner: Name, rex: int): Result<Fill>
    requires owner in s.balances
  {
    if s.pool.None? then Abort else
    var pool := s.pool.value;
    var proceeds :- Value(pool, rex);
    if proceeds <= Available(pool) then
      var rb := s.balances[owner];
      var stake :- Value(pool, rb.rex);
      var rb1 := rb.(voteStake := stake - proceeds, rex := rb.rex - rex, matured := rb.matured - rex);
      var s1 := s.(pool := Some(Redeem(pool, rex, proceeds)), balances := s.balances[owner := rb1],
                   log := s.log + [Sold(owner, rex, Seconds(s.now))]);
      Ok(Filled(s1, proceeds, rb1.voteStake - rb.voteStake))
    else Ok(Unfilled)
  }

  /** Tries to fill the open order of `owner`. */
  function FillQueued(s: State, owner: Name): Result<State>
    requires owner in s.orders
  {
    if owner in s.balances then
      var fill :- FillOrder(s, owner, s.orders[owner].requested);
      match fill
      case Unfilled => Ok(s)
      case Filled(s1, proceeds, stakeChange) =>
        var order := s.orders[owner].(proceeds := proceeds, stakeChange := stakeChange, isOpen := false);
        Ok(s1.(orders := s1.orders[owner := order]))
    else Ok(s)
  }

  /** Processes at most `max` open orders, starting with the one of `cursor`. */
  function FillOrders(s: State, cursor: Option<Name>, max: nat): Result<State>
    decreases max
  {
    if max == 0 || cursor.None? || cursor.value !in s.orders || !s.orders[cursor.value].isOpen then Ok(s)
    else
      var next := NextOrder(s.orders, cursor.value);
      var s1 :- FillQueued(s, cursor.value);
      FillOrders(s1, next, max - 1)
  }

  /** Hands the proceeds of closed name auctions to the pool. */
  function ChannelNamebids(s: State): Result<State> {
    if s.pool.None? then Abort else
    if s.pool.value.namebidProceeds > 0 then
      var s1 :- ChannelToRex(s, NAMES_ACCOUNT, s.pool.value.namebidProceeds);
      :- Check(s1.pool.Some?);
      Ok(s1.(pool := Some(s1.pool.value.(namebidProceeds := 0))))
    else Ok(s)
  }

  function RunRex(s: State, max: nat): Result<State> {
    var s1 :- ChannelNamebids(s);
    var s2 :- RunLoans(s1, Cpu, max);
    var s3 :- RunLoans(s2, Net, max);
    FillOrders(s3, FirstOrder(s3.orders), max)
  }

  // ---------- steps shared by the actions ----------

  function AddToPool(s: State, payment: int): Result<(State, int)> {
    var (pool, rex) :- Buy(s.pool, payment);
    Ok((s.(pool := Some(pool)), rex))
  }

  /** Credits bought REX to `owner`; the vote stake becomes the value of the whole balance. */
  function AddToBalance(s: State, owner: Name, payment: int, rex: int): Result<State> {
    var held := if owner in s.balances then s.balances[owner].rex else 0;
    var stake :- (if owner in s.balances then
                    :- Check(s.pool.Some?); Value(s.pool.value, held + rex)
                  else Ok(payment));
    var rb := if owner in s.balances then s.balances[owner] else RexBalance(0, 0, 0, []);
    var rb1 := Receive(rb.(voteStake := stake), Seconds(s.now), rex);
    Ok(s.(balances := s.balances[owner := rb1], log := s.log + [Bought(owner, rex, Seconds(s.now))]))
  }

  /** Pays `payment` into the pool and credits the shares to `owner`. */
  function BuyShares(s: State, owner: Name, payment: int): Result<State> {
    var (s1, rex) :- AddToPool(s, payment);
    AddToBalance(s1, owner, payment, rex)
  }

  /** Claims a filled order of `owner` and pays it out together with `proceeds`; also returns
      the REX in an order that is still open. */
  function SettleAccount(s: State, owner: Name, proceeds: int): (State, int) {
    var closed := owner in s.orders && !s.orders[owner].isOpen;
    var inOrder := if owner in s.orders && s.orders[owner].isOpen then s.orders[owner].requested else 0;
    var toFund := proceeds + (if closed then s.orders[owner].proceeds else 0);
    var orders := if closed then s.orders - {owner} else s.orders;
    var funds := if toFund > 0 then Credit(s.funds, owner, toFund) else s.funds;
    (s.(orders := orders, funds := funds), inOrder)
  }

  /** Replaces the REX balance of `owner`. */
  function PutBalance(s: State, owner: Name, rb: RexBalance): State {
    s.(balances := s.balances[owner := rb])
  }

  /** Queues `rex`, or adds it to the open order of `owner`. */
  function QueueOrder(s: State, owner: Name, rex: int): State {
    var order := if owner in s.orders then s.orders[owner].(requested := s.orders[owner].requested + rex)
                 else Order(rex, 0, 0, s.now, true);
    s.(orders := s.orders[owner := order])
  }
}
