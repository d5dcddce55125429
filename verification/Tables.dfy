/** Account names, clock units and the rows of the system contract's tables that the
    resource exchange and the staking ledger use. */
module Tables {
  import opened Basics

  /** An account name is the 64-bit value it encodes; 0 is the empty name. */
  type Name = nat

  const NO_NAME: Name := 0
  const REX_ACCOUNT: Name := 0x5530ea02eae80000
  const STAKE_ACCOUNT: Name := 0x5530ea0319341400
  const NAMES_ACCOUNT: Name := 0x5530ea026692b000
  const RAM_ACCOUNT: Name := 0x5530ea02e6900000
  const RAMFEE_ACCOUNT: Name := 0x5530ea02e692d4a0
  const B1: Name := 0x3840000000000000

  // Clock: the chain's time points are microseconds, maturities are whole seconds.
  const MICROS_PER_SECOND: nat := 1_000_000
  const SECONDS_PER_DAY: nat := 86_400
  const DAY_MICROS: nat := 86_400_000_000
  const LOAN_TERM: nat := 2_592_000_000_000
  const REFUND_DELAY_SECONDS: nat := 259_200
  const MAX_TIME: nat := 0xffff_ffff_ffff_ffff

  /** `time_point_sec::maximum()`, the maturity of the savings bucket. */
  const END_OF_DAYS: nat := 0xffff_ffff

  function Seconds(micros: nat): nat {
    micros / MICROS_PER_SECOND
  }

  /** Midnight, UTC, of the day `second` lies in. */
  function DayStart(second: nat): nat {
    second - second % SECONDS_PER_DAY
  }

  datatype Pool = Pool(
    lent: int, unlent: int, rent: int, lendable: int, rex: int, namebidProceeds: int, loanNum: nat)

  /** A maturity bucket: the second it matures at, and an amount of REX. */
  datatype Bucket = Bucket(time: nat, amount: int)

  datatype RexBalance = RexBalance(voteStake: int, rex: int, matured: int, maturities: seq<Bucket>)

  datatype Loan = Loan(
    from: Name, receiver: Name, payment: int, balance: int, staked: int, expiration: nat)

  datatype Order = Order(
    requested: int, proceeds: int, stakeChange: int, time: nat, isOpen: bool)

  datatype Delegation = Delegation(to: Name, net: int, cpu: int) {
    predicate IsEmpty() {
      net == 0 && cpu == 0
    }
  }

  datatype Totals = Totals(net: int, cpu: int, ram: int) {
    predicate IsEmpty() {
      net == 0 && cpu == 0 && ram == 0
    }
  }

  datatype Refund = Refund(time: nat, net: int, cpu: int) {
    predicate IsEmpty() {
      net == 0 && cpu == 0
    }
  }

  /** A name auction; a closed one carries the negated winning bid. */
  datatype NameBid = NameBid(bidder: Name, highBid: int, lastBid: nat)

  /** Entries of the action trace: REX received by an owner, and REX sold or filled. */
  datatype Event =
    | Bought(owner: Name, rex: int, at: nat)
    | Sold(owner: Name, rex: int, at: nat)

  datatype Resource = Net | Cpu

  /** Everything the modelled actions read and write. `tokens` holds the core-token
      balances of the token contract. */
  datatype State = State(
    now: nat,
    tokens: map<Name, nat>,
    pool: Option<Pool>,
    funds: map<Name, int>,
    balances: map<Name, RexBalance>,
    cpuLoans: map<nat, Loan>,
    netLoans: map<nat, Loan>,
    orders: map<Name, Order>,
    delegations: map<(Name, Name), Delegation>,
    totals: map<Name, Totals>,
    refunds: map<Name, Refund>,
    bids: map<Name, NameBid>,
    bidRefunds: map<(Name, Name), int>,
    log: seq<Event>)

  function Loans(s: State, kind: Resource): map<nat, Loan> {
    if kind == Cpu then s.cpuLoans else s.netLoans
  }

  function WithLoans(s: State, kind: Resource, loans: map<nat, Loan>): State {
    if kind == Cpu then s.(cpuLoans := loans) else s.(netLoans := loans)
  }

  /** The order a closed or open sell order takes in the queue's time index. */
  function ByTime(orders: map<Name, Order>): Name -> int {
    (n: Name) => if n in orders then (if orders[n].isOpen then orders[n].time else MAX_TIME) else 0
  }

  function ByExpiration(loans: map<nat, Loan>): nat -> int {
    (n: nat) => if n in loans then loans[n].expiration else 0
  }
}
