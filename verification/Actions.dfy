/** The actions of the resource exchange and the staking ledger as one state machine. */
module Actions {
  import opened Basics
  import opened Tables
  import opened Maturity
  import opened RexPool
  import opened Rex
  import opened Staking

  /** `voteOk` tells whether the voting side of an action (the voting requirement and the update
      of the owner's voting power) passes its checks. */
  datatype Action =
    | Tick(micros: nat)
    | Deposit(owner: Name, amount: int)
    | Withdraw(owner: Name, amount: int, voteOk: bool)
    | BuyRex(owner: Name, amount: int, voteOk: bool)
    | UnstakeToRex(owner: Name, receiver: Name, net: int, cpu: int, voteOk: bool)
    | SellRex(owner: Name, rex: int, voteOk: bool)
    | CancelOrder(owner: Name)
    | Rent(kind: Resource, owner: Name, receiver: Name, payment: int, fund: int)
    | FundLoan(kind: Resource, owner: Name, loan: nat, payment: int)
    | DefundLoan(kind: Resource, owner: Name, loan: nat, amount: int)
    | UpdateRex(owner: Name, voteOk: bool)
    | SetRex(balance: int)
    | RexExec(max: nat)
    | ConsolidateRex(owner: Name, voteOk: bool)
    | MvToSavings(owner: Name, rex: int, voteOk: bool)
    | MvFrSavings(owner: Name, rex: int, voteOk: bool)
    | CloseRex(owner: Name, voteOk: bool)
    | Delegate(owner: Name, receiver: Name, net: int, cpu: int, transfer: bool, voteOk: bool)
    | Undelegate(owner: Name, receiver: Name, net: int, cpu: int, activated: bool, voteOk: bool)
    | Refunding(owner: Name)
    | VoteProducer(owner: Name)
    | RamTrade(receiver: Name, bytes: nat, fee: nat)
    | BidName(owner: Name, newname: Name, bid: int, nameOk: bool)
    | BidRefund(owner: Name, newname: Name)
    | AuctionClose(due: bool)
    | TransferTokens(owner: Name, to: Name, quantity: int)

  function ExecDeposit(s: State, owner: Name, amount: int): Result<State> {
    if amount <= 0 then Abort else
    var s1 :- SendTokens(s, owner, REX_ACCOUNT, amount);
    ToFund(s1, owner, amount)
  }

  function ExecWithdraw(s: State, owner: Name, amount: int, voteOk: bool): Result<State> {
    if amount <= 0 then Abort else
    var (s1, inOrder) := SettleAccount(s, owner, 0);
    :- Check(voteOk);
    var s2 :- FromFund(s1, owner, amount);
    SendTokens(s2, REX_ACCOUNT, owner, amount)
  }

  function ExecBuyRex(s: State, owner: Name, amount: int, voteOk: bool): Result<State> {
    if amount <= 0 then Abort else
    :- Check(voteOk);
    var s1 :- FromFund(s, owner, amount);
    var s2 :- BuyShares(s1, owner, amount);
    var s3 :- RunRex(s2, 2);
    var (s4, inOrder) := SettleAccount(s3, owner, 0);
    Ok(s4)
  }

  function ExecUnstakeToRex(s: State, owner: Name, receiver: Name, net: int, cpu: int, voteOk: bool): Result<State> {
    if !(0 <= net && 0 <= cpu && (0 < net || 0 < cpu)) then Abort else
    :- Check(voteOk);
    var s1 :- UnstakeForRex(s, owner, receiver, net, cpu);
    var s2 :- BuyShares(s1, owner, net + cpu);
    var s3 :- RunRex(s2, 2);
    var (s4, inOrder) := SettleAccount(s3, owner, 0);
    Ok(s4)
  }

  function ExecSellRex(s: State, owner: Name, rex: int, voteOk: bool): Result<State> {
    var s1 :- RunRex(s, 2);
    :- Check(owner in s1.balances);
    :- Check(rex > 0);
    var s2 := PutBalance(s1, owner, Process(s1.balances[owner], Seconds(s1.now)));
    :- Check(rex <= s2.balances[owner].matured);
    SellMatured(s2, owner, rex, voteOk)
  }

  /** Fills a sell order at once, or queues it. */
  function SellMatured(s: State, owner: Name, rex: int, voteOk: bool): Result<State>
    requires owner in s.balances
  {
    var fill :- FillOrder(s, owner, rex);
    match fill
    case Filled(s1, proceeds, stakeChange) =>
      :- Check(proceeds != 0);
      var (s2, inOrder) := SettleAccount(s1, owner, proceeds);
      :- Check(voteOk);
      :- Check(owner in s2.balances && inOrder <= s2.balances[owner].matured);
      Ok(s2)
    case Unfilled =>
      var (s1, inOrder) := SettleAccount(s, owner, 0);
      :- Check(voteOk);
      :- Check(owner != B1);
      var s2 := QueueOrder(s1, owner, rex);
      :- Check(owner in s2.balances && s2.orders[owner].requested <= s2.balances[owner].matured);
      Ok(s2)
  }

  function ExecCancelOrder(s: State, owner: Name): Result<State> {
    if owner !in s.orders then Abort else
    :- Check(s.orders[owner].isOpen);
    Ok(s.(orders := s.orders - {owner}))
  }

  function ExecRent(s: State, kind: Resource, owner: Name, receiver: Name, payment: int, fund: int): Result<State> {
    var s1 :- RunRex(s, 2);
    :- Check(LoansAvailable(s1));
    :- Check(0 < payment && 0 <= fund);
    var s2 :- FromFund(s1, owner, payment + fund);
    CreateLoan(s2, kind, owner, receiver, payment, fund)
  }

  function CreateLoan(s: State, kind: Resource, owner: Name, receiver: Name, payment: int, fund: int): Result<State> {
    if s.pool.None? then Abort else
    var pool := s.pool.value;
    var rented := BancorOutput(pool.rent, pool.unlent, payment);
    :- Check(payment < rented);
    var pool1 := AddLoan(pool, payment, rented, true);
    var loan := Loan(owner, receiver, payment, fund, rented, s.now + LOAN_TERM);
    var s1 := s.(pool := Some(pool1));
    UpdateResourceLimits(WithLoans(s1, kind, Loans(s1, kind)[pool1.loanNum := loan]), kind, receiver, rented)
  }

  function ExecFundLoan(s: State, kind: Resource, owner: Name, id: nat, payment: int): Result<State> {
    var s1 :- FromFund(s, owner, payment);
    :- Check(id in Loans(s1, kind));
    var loan := Loans(s1, kind)[id];
    :- Check(loan.from == owner);
    :- Check(loan.expiration > s.now);
    Ok(WithLoans(s1, kind, Loans(s1, kind)[id := loan.(balance := loan.balance + payment)]))
  }

  function ExecDefundLoan(s: State, kind: Resource, owner: Name, id: nat, amount: int): Result<State> {
    if id !in Loans(s, kind) then Abort else
    var loan := Loans(s, kind)[id];
    :- Check(loan.from == owner);
    :- Check(loan.expiration > s.now);
    :- Check(loan.balance >= amount);
    var s1 := WithLoans(s, kind, Loans(s, kind)[id := loan.(balance := loan.balance - amount)]);
    ToFund(s1, owner, amount)
  }

  function ExecUpdateRex(s: State, owner: Name, voteOk: bool): Result<State> {
    var s1 :- RunRex(s, 2);
    :- Check(owner in s1.balances);
    :- Check(s1.pool.Some?);
    var rb := s1.balances[owner];
    var stake := if s1.pool.value.rex > 0 then (rb.rex * s1.pool.value.lendable) / s1.pool.value.rex else 0;
    var s2 := PutBalance(s1, owner, rb.(voteStake := stake));
    var (s3, inOrder) := SettleAccount(s2, owner, 0);
    :- Check(voteOk);
    Ok(PutBalance(s3, owner, Process(s3.balances[owner], Seconds(s3.now))))
  }

  function ExecSetRex(s: State, balance: int): Result<State> {
    if balance <= 0 then Abort else
    :- Check(s.pool.Some?);
    Ok(s.(pool := Some(s.pool.value.(rent := balance))))
  }

  function ExecConsolidate(s: State, owner: Name, voteOk: bool): Result<State> {
    var s1 :- RunRex(s, 2);
    :- Check(owner in s1.balances);
    var (s2, inOrder) := SettleAccount(s1, owner, 0);
    :- Check(voteOk);
    Ok(PutBalance(s2, owner, Consolidate(s2.balances[owner], Seconds(s2.now), inOrder)))
  }

  function ExecMvToSavings(s: State, owner: Name, rex: int, voteOk: bool): Result<State> {
    var s1 :- RunRex(s, 2);
    :- Check(owner in s1.balances);
    :- Check(rex > 0);
    var (s2, inOrder) := SettleAccount(s1, owner, 0);
    :- Check(voteOk);
    var rb :- MoveToSavings(s2.balances[owner], Seconds(s2.now), rex, inOrder);
    Ok(PutBalance(s2, owner, rb))
  }

  function ExecMvFrSavings(s: State, owner: Name, rex: int, voteOk: bool): Result<State> {
    var s1 :- RunRex(s, 2);
    :- Check(owner in s1.balances);
    :- Check(rex > 0);
    var rb :- MoveFromSavings(s1.balances[owner], Seconds(s1.now), rex);
    var (s2, inOrder) := SettleAccount(PutBalance(s1, owner, rb), owner, 0);
    :- Check(voteOk);
    Ok(s2)
  }

  /** `owner` took out no loan of the table. */
  predicate NoLoansOf(loans: map<nat, Loan>, owner: Name) {
    forall id | id in loans.Keys :: loans[id].from != owner
  }

  function ExecCloseRex(s: State, owner: Name, voteOk: bool): Result<State> {
    var s1 :- (if s.pool.Some? then RunRex(s, 2) else Ok(s));
    var (s2, inOrder) := SettleAccount(s1, owner, 0);
    :- Check(voteOk);
    var closesFund := NoLoansOf(s2.cpuLoans, owner) && NoLoansOf(s2.netLoans, owner)
                      && owner in s2.funds && s2.funds[owner] == 0;
    var s3 := if closesFund then s2.(funds := s2.funds - {owner}) else s2;
    :- Check(owner in s3.balances ==> s3.balances[owner].rex == 0);
    Ok(s3.(balances := s3.balances - {owner}))
  }

  function ExecDelegate(s: State, owner: Name, receiver: Name, net: int, cpu: int, transfer: bool,
      voteOk: bool): Result<State> {
    if cpu < 0 then Abort else
    :- Check(net >= 0);
    :- Check(net + cpu > 0);
    :- Check(!transfer || owner != receiver);
    var s1 :- ChangeBandwidth(s, owner, receiver, net, cpu, transfer);
    :- Check(voteOk);
    Ok(s1)
  }

  function ExecUndelegate(s: State, owner: Name, receiver: Name, net: int, cpu: int, activated: bool,
      voteOk: bool): Result<State> {
    if cpu < 0 then Abort else
    :- Check(net >= 0);
    :- Check(net + cpu > 0);
    :- Check(activated);
    var s1 :- ChangeBandwidth(s, owner, receiver, -net, -cpu, false);
    :- Check(voteOk);
    Ok(s1)
  }

  /** What buying or selling RAM does to these tables: the receiver's quota changes and the
      market's fee is channelled to the pool. */
  function ExecRamTrade(s: State, receiver: Name, bytes: nat, fee: nat): Result<State> {
    var row := if receiver in s.totals then s.totals[receiver] else Totals(0, 0, 0);
    var s1 := s.(totals := s.totals[receiver := row.(ram := bytes)]);
    if fee > 0 then ChannelToRex(s1, RAMFEE_ACCOUNT, fee) else Ok(s1)
  }

  function Exec(s: State, a: Action): Result<State> {
    match a
    case Tick(micros) =>
      :- Check(Seconds(s.now + micros) + 5 * SECONDS_PER_DAY < END_OF_DAYS);
      Ok(s.(now := s.now + micros))
    case Deposit(owner, amount) => ExecDeposit(s, owner, amount)
    case Withdraw(owner, amount, voteOk) => ExecWithdraw(s, owner, amount, voteOk)
    case BuyRex(owner, amount, voteOk) => ExecBuyRex(s, owner, amount, voteOk)
    case UnstakeToRex(owner, receiver, net, cpu, voteOk) => ExecUnstakeToRex(s, owner, receiver, net, cpu, voteOk)
    case SellRex(owner, rex, voteOk) => ExecSellRex(s, owner, rex, voteOk)
    case CancelOrder(owner) => ExecCancelOrder(s, owner)
    case Rent(kind, owner, receiver, payment, fund) => ExecRent(s, kind, owner, receiver, payment, fund)
    case FundLoan(kind, owner, id, payment) => ExecFundLoan(s, kind, owner, id, payment)
    case DefundLoan(kind, owner, id, amount) => ExecDefundLoan(s, kind, owner, id, amount)
    case UpdateRex(owner, voteOk) => ExecUpdateRex(s, owner, voteOk)
    case SetRex(balance) => ExecSetRex(s, balance)
    case RexExec(max) => RunRex(s, max)
    case ConsolidateRex(owner, voteOk) => ExecConsolidate(s, owner, voteOk)
    case MvToSavings(owner, rex, voteOk) => ExecMvToSavings(s, owner, rex, voteOk)
    case MvFrSavings(owner, rex, voteOk) => ExecMvFrSavings(s, owner, rex, voteOk)
    case CloseRex(owner, voteOk) => ExecCloseRex(s, owner, voteOk)
    case Delegate(owner, receiver, net, cpu, transfer, voteOk) =>
      ExecDelegate(s, owner, receiver, net, cpu, transfer, voteOk)
    case Undelegate(owner, receiver, net, cpu, activated, voteOk) =>
      ExecUndelegate(s, owner, receiver, net, cpu, activated, voteOk)
    case Refunding(owner) => ClaimRefund(s, owner)
    case VoteProducer(owner) => SyncVoteStake(s, owner)
    case RamTrade(receiver, bytes, fee) => ExecRamTrade(s, receiver, bytes, fee)
    case BidName(owner, newname, bid, nameOk) =>
      :- Check(nameOk);
      Bid(s, owner, newname, bid)
    case BidRefund(owner, newname) => RefundBid(s, owner, newname)
    case AuctionClose(due) => Ok(CloseAuction(s, due))
    case TransferTokens(owner, to, quantity) => SendTokens(s, owner, to, quantity)
  }

  /** A failed action leaves every table as it was. */
  function Step(s: State, a: Action): State {
    match Exec(s, a)
    case Ok(s1) => s1
    case Abort => s
  }

  function Run(s: State, actions: seq<Action>): State {
    if actions == [] then s else Step(Run(s, actions[..|actions| - 1]), actions[|actions| - 1])
  }
}
