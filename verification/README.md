# Economic state machine of the EOSIO system contract

A Dafny model of the parts of `eosio.system` and `eosio.token` that move value, and proofs of what
they keep. `dafny verify dfyconfig.toml` checks everything.

Every action is a step over tables, maps from an account or an id to a row, with a clock that never
goes back. A failed check aborts the action and leaves every table as it was. Each component has two
forms: functions of the tables, which state what a step does and about which the lemmas speak, and a
class whose methods update the tables in place, with the contract's own loops and recursion, each
proved to do what the function says and to fail exactly when it aborts. What the functions do is
stated in turn without them: the modules named `...Effects` say of each action which rows, tokens,
shares and weights it moves, by which amount and under which condition, with every constant and
every rounding written out, and that nothing else moves.

| Component | Functions and proofs | Class |
|---|---|---|
| Vocabulary: results, sums over tables, ordered indices, rows | `Basics`, `Tables`, `Arithmetic` | |
| REX balance: maturity buckets and savings | `Maturity`, `LockUp` | |
| REX pool: share and loan prices | `RexPool` | |
| REX, delegated bandwidth, refunds, name auction | `Rex`, `Staking`, `Actions`; `RexInvariant`, `RexProofs`, `ActionProofs`, `StakeProofs`, `ActionInv`; effects in `LoanEffects`, `OrderEffects`, `StakeEffects`, `AccountEffects`; whole runs in `RexTheorems`, `RexHistory`, `OrderEffects`, `RefundHistory` | `RexContract` |
| RAM market | `Exchange`, `RamMarket`, `RamTrades`, `RamEffects` | `ExchangeState`, `RamContract` |
| Votes, proxies, vote pay, producer pay | `Voting`, `ProducerPay`; `VotingInvariant`, `VotingProofs`, `VoteCast`, `ProxyGraph`, `Aggregate`; effects in `VoteEffects`, `PayEffects`; whole runs in `VotePayRuns`, `AggregateRuns`, `Drift`, `PayRuns`, `ActivatedStake`, `DroppedChanges` | `VoteContract` |
| Election of producers | `Election` | `Scheduler` |
| Core token | `Ledger`, `Token` | `TokenContract` |

The main results are about all reachable states and all runs: the custodian accounts are solvent to
the token; once a queued REX sale is thirty days old, one call of `rexexec` with a large enough
maximum pays it; REX is locked until four days after the day it was bought whatever its owner does;
the share price never falls; the RAM market can always buy back what it sold; proxies never form a
cycle, so that a changed weight always stops travelling; and the pay accounts always hold exactly
what is still to be paid out of them, so that after the first revision no claim can lack funds. In
every run, whatever becomes of votes, the lazily updated vote-pay counters are the sums they stand
for less a lag that is computed action by action from the tables, and is nothing in every run that
drives no producer's votes below zero. In every run, too, a proxy holds the weight of its users to
within the number of changes of weight that were dropped, and a producer the weight of its direct
voters to within what was dropped, clamped or cast with a negative weight. Over runs, too, nothing
gets lost: all the REX an account asked to sell was sold, waits or was cancelled, and no pass over
the queue skips an order that has waited longer; all that an account undelegated was refunded, no
sooner than three days later, is pending, or was delegated to itself again; and the activated stake
is the stake of those whose vote weighs something, however often they vote, in every run in which no
stake changes once it weighs something, no proxy holds less than nothing, and nobody becomes a proxy
with a stake that has not voted.

## What the model assumes

- Amounts are unbounded integers; `RexTheorems.AmountsFit` and `Token.SupplyIsSum` bound them
  afterwards. Integer formulas of the contract are the same formulas here. The 32-bit product that
  releases RAM is written out with its wrap-around.
- Formulas in floating point are taken in exact arithmetic. The loan price is the floor of
  in * conout / (in + conin). A conversion through the intermediate token issues the largest amount
  E with (S+E)^2 * C <= S^2 * (C+T), and releases the floor of B * ((S+E)^2 - S^2) / S^2. Vote
  weights are integers, and the weight of a stake at a time is an arbitrary non-negative function.
  A vote-pay share counts weight times microseconds.
- Custodian accounts (`eosio.rex`, `eosio.stake`, `eosio.names`, `eosio.bpay`, `eosio.vpay`,
  `eosio.ram`) neither sign actions nor take part in transfers from outside the contract; the
  predicates `Admissible` say so. In the RAM market only outside transfers are restricted.
- Inline token transfers happen at once, and abort the whole action when they fail.
- In the REX component the voting side of an action (the voting requirement and the update of the
  owner's voting power) either passes or aborts the action, as the flag `voteOk` decides; in
  `undelegatebw` the flag `activated` stands for the activation threshold, and in `bidname`
  `nameOk` for the rules on names. In the RAM component `rexOpen` tells whether fees go to the pool,
  and in the election `accepted` is the host's answer to a proposed schedule. For the name auction
  `due` tells whether a day has passed since the last auction closed and fourteen since activation.
- REX bought and REX sold are recorded in a log, as the contract records them in its action traces.
  The lock-up theorem speaks about this log.
- The clock stays below the last second of a 32-bit time point by five days.
- The two rows of a producer are one row, as they are always created together.

## Where the code and its documentation disagree

- `buyrambytes` is documented to buy an exact amount of RAM. It prices the bytes as if they were
  sold, before new RAM is released, and pays a fee out of that price. Without a release in between
  it delivers strictly less than asked (`RamTrades.BuyRamBytesFallsShort`); with one it may deliver
  more or less (`RamTrades.DeliversMore`, `RamTrades.DeliversLess`), and
  `RamTrades.BuyRamBytesDelivers` says when it delivers enough.
- New RAM is documented to be released at a rate per block. The product of blocks and rate is taken
  in 32 bits; the release is exact if and only if the product fits (`RamTrades.ReleaseExact`).
- Small changes of weight are not passed on to proxies and producers, while the voter's own row
  records them. Tallies are exact after a propagation if and only if nothing but zero was dropped
  (`VotingProofs.PropagateKeeps`), and `Drift.TalliesWithin` bounds how far they drift in any run.
  The module `DroppedChanges` follows one run from an empty chain: after five actions a producer
  lacks a unit of weight (`TallyFails`); after eleven its votes are negative, and the global rate is
  not the sum of the counted votes unless others have at least as many (`PayFails`); once it is
  deactivated, the election passes over a candidate that has no more votes than it lacks
  (`ElectionFails`).
- Stake is meant to be activated by its owner's first vote, and the last weight tells whether one was
  cast. But whoever registers as a proxy has a last weight at once, so that its first vote activates
  nothing: `ActivatedStake.NeverActivated` follows such a run, after which a stake of any size counts
  in full for a producer and not at all towards the threshold. `ActivatedStake.ActivationKept` gives,
  for every action, the exact condition under which the activated stake stays the stake of those who
  voted, and `ActivatedStake.ActivatedExactly` the runs in which it does.
- Vote pay needs no exact tallies. A propagation from an exact accounting without negative votes
  keeps the equations if and only if the counted votes it leaves do not sum to less than zero, which
  is what the clamp of the global rate looks at (`Aggregate.PropagateFromPay`). Once votes are
  negative, their row accrues nothing, and changing it keeps the equations if and only if it is up
  to date or does not count any more (`Aggregate.ChangeVotesExact`). The producer loop of a vote, a
  claim and a whole action have their exact conditions in `Aggregate.DeltasEquations`,
  `Aggregate.ClaimEquations` and `AggregateRuns.ExecEquations`. That in addition nobody's votes are
  negative, on which the election rests, holds in runs that drive no votes below zero
  (`VotePayRuns.VotePayExact`).

## Model

| member | source | states |
|---|---|---|
| `Maturity.ProcessKeepsRow` | contracts/eosio.system/src/rex.cpp:1021-1030 | Processing a well-formed balance moves exactly the REX that is due to the matured part: the total and the vote stake stay, no due bucket is left, and the queue stays in order |
| `Maturity.ProcessMovesDue` | contracts/eosio.system/src/rex.cpp:1024-1028 | What could be sold by any later second is the same before and after processing |
| `Maturity.ReceiveKeepsRow` | contracts/eosio.system/src/rex.cpp:1147-1157 | Bought REX keeps the queue well-formed and adds to what can be sold only from the end of the fourth full day on |
| `Maturity.MoveToSavingsKeepsRow` | contracts/eosio.system/src/rex.cpp:389-412 | `mvtosavings` succeeds if and only if the amount, the open order and the savings together are within the balance; so neither of its two internal error checks can fire, and nothing becomes sellable earlier |
| `Maturity.MoveFromSavingsKeepsRow` | contracts/eosio.system/src/rex.cpp:429-440 | REX taken out of savings starts a full maturity period; the balance total stays |
| `Maturity.ConsolidateKeepsRow` | contracts/eosio.system/src/rex.cpp:1038-1054 | After consolidation only the REX of an open order is sellable before the new maturity; then everything but savings is |
| `Maturity.AtMostSixBuckets` | contracts/eosio.system/src/rex.cpp:1007-1014 | A well-formed queue has at most five daily buckets and one savings bucket |
| `Maturity.TakeFromBackDue` | contracts/eosio.system/src/rex.cpp:396-403 | Taking REX from the latest buckets never makes more of it due by any second |
| `RexPool.BancorBounds` | contracts/eosio.system/src/rex.cpp:496-507 | The loan price is within the output connector, and is exactly in * conout / (in + conin) in whole units, bounded from both sides |
| `RexPool.BuyKeepsPool` | contracts/eosio.system/src/rex.cpp:1063-1114 | A purchase never aborts on a sound pool: the checks on an empty and on a negative pool cannot fire; the first one issues 10000 REX for each unit and starts the rent connector at 20000 tokens, a later one issues its proportional share in whole units; the share price does not fall, and REX stays within 10000 times the lendable tokens |
| `RexPool.RedeemKeepsPool` | contracts/eosio.system/src/rex.cpp:821-855 | Redeeming pays at most the pool, empties shares and tokens only together, and never lowers the share price |
| `RexPool.FifthKeptBack` | contracts/eosio.system/src/rex.cpp:833-834 | What an order may not take is a fifth of the lent tokens in whole units |
| `RexPool.AddLoanKeepsPool` | contracts/eosio.system/src/rex.cpp:607-623 | Lending at the quoted price: the payment enters the rent connector and the pool, and what it rents keeps the product of the two connectors up to less than the new rent; totals stay consistent and the share price does not fall |
| `RexPool.RemoveLoanKeepsPool` | contracts/eosio.system/src/rex.cpp:630-644 | Closing a loan returns what it had lent to the unlent tokens and takes from the rent connector what keeps the product of the two connectors up to less than the new unlent tokens; shares and lendable stay, and all totals are consistent and non-negative |
| `RexPool.BoughtSharesKeepTheirValue` | contracts/eosio.system/src/rex.cpp:1098-1111 | Bought shares are worth at most the payment at once, and at least the payment less one unit at once and in any later pool whose price has not fallen, if a share cost at most one unit |
| `Ledger.TransferMoves` | contracts/eosio.token/src/eosio.token.cpp:87-137 | A transfer changes exactly two balances by exactly the quantity and keeps the sum of all balances |
| `RexProofs.RunRexKeeps` | contracts/eosio.system/src/rex.cpp:666-771 | `runrex` never fails in a reachable state with a pool, and keeps the whole invariant; the share price does not fall, and no loan is renewed while an order waits |
| `RexProofs.ChannelNamebidsKeeps` | contracts/eosio.system/src/rex.cpp:702-708 | Name-bid proceeds reach the pool in full: the names account holds them, and they are never dropped |
| `RexProofs.ExpireLoanKeeps` | contracts/eosio.system/src/rex.cpp:672-700 | Expiring a loan never fails: its receiver's totals cover it, and its creator has a fund row for the refund |
| `RexProofs.RunLoansKeeps` | contracts/eosio.system/src/rex.cpp:710-742 | A loan loop of any length never fails and keeps the invariant |
| `RexProofs.FillKeeps` | contracts/eosio.system/src/rex.cpp:821-855 | An order covered by matured REX never fails; it is filled if and only if its value is within unlent minus a fifth of lent, and exactly that value leaves the pool |
| `RexProofs.FillQueuedKeeps` | contracts/eosio.system/src/rex.cpp:749-768 | A queued order is filled if and only if the pool can pay for it; its owner always has a balance row; other orders stay |
| `RexProofs.FillOrdersKeeps` | contracts/eosio.system/src/rex.cpp:744-769 | Working through the queue never fails, whatever is filled on the way |
| `RexProofs.UpdateTotalsEffect` | contracts/eosio.system/src/rex.cpp:517-565 | An update of resource weights moves exactly the receiver's weights by the deltas, also when it erases the row |
| `LoanEffects.AvailabilityMeans` | contracts/eosio.system/src/rex.cpp:586-598 | Loans are available if and only if shares are outstanding and no order at all is open, which the contract reads off the first row of an index |
| `LoanEffects.ExpireLoanMoves` | contracts/eosio.system/src/rex.cpp:672-700 | An expired loan is renewed if and only if shares are outstanding, nobody waits to sell, its balance covers its payment and the payment rents more than itself. Closed, its tokens are back in the pool, the product of the connectors is kept, its receiver loses the weight and its creator has the rest of the balance; renewed, it runs thirty days longer, at the price that keeps the product, out of its own balance. No order, REX balance, token or other loan moves |
| `LoanEffects.RunLoansServe` | contracts/eosio.system/src/rex.cpp:710-742 | A pass reaches only expired loans, no more than its maximum, and those that expire first before the others; no loan is added or made to expire earlier, and the loans of the other resource stay |
| `LoanEffects.RentMoves` | contracts/eosio.system/src/rex.cpp:774-803 | A new loan, after maintenance: the renter's fund falls by payment and loan fund, the loan is recorded under a fresh number with thirty days, and what it rents, more than the payment, keeps the product of the connectors; exactly the receiver's weight rises by it |
| `OrderEffects.SellMoves` | contracts/eosio.system/src/rex.cpp:128-176 | A sale, after maintenance, is worth its share of the lendable tokens in whole units. If a fifth of the lent tokens can stay behind it is paid, being positive, into the seller's fund, with whatever a filled order left, and an open order stays as it was; if not, the seller's order is open with what was open before plus the amount, at its old place in the queue if it had one, and no balance or fund moves but for a claimed order; `b1` never waits |
| `OrderEffects.SettleMoves` | contracts/eosio.system/src/rex.cpp:939-961 | Settling an account raises its fund by the proceeds and by what a filled order left, removes that order and nothing else, and reports the REX of an open one |
| `OrderEffects.FillStake` | contracts/eosio.system/src/rex.cpp:836-848 | The vote stake a redemption leaves is the value of the whole balance before it, in whole units, less the proceeds |
| `OrderEffects.FilledOrder` | contracts/eosio.system/src/rex.cpp:753-766 | A queued order stays as it is, or is filled for its share of the lendable tokens in whole units: it then records that and the change of its owner's vote stake for the owner to claim, and exactly its REX leaves the balance |
| `OrderEffects.QueueServed` | contracts/eosio.system/src/rex.cpp:744-769 | A pass over the queue serves the orders that have waited longest, as many as its maximum: each is filled, unless the pool cannot pay for it even when the pass is over; all others stay as they were |
| `OrderEffects.AskedSoldOrWaiting` | contracts/eosio.system/src/rex.cpp:128-190 | Over any run: all the REX an account asked to sell has been sold, at once or from the queue, is open, or was cancelled |
| `AccountEffects.DepositMoves` | contracts/eosio.system/src/rex.cpp:16-28 | A deposit moves its amount from the owner's tokens to the REX account and into the owner's fund |
| `AccountEffects.WithdrawMoves` | contracts/eosio.system/src/rex.cpp:36-49 | A withdrawal claims a filled order and moves its amount out of the fund and to the owner's tokens |
| `AccountEffects.PurchaseMoves` | contracts/eosio.system/src/rex.cpp:1063-1159 | A purchase credits REX at the price, or 10000 for each unit of the first one, sellable from the end of the fourth full day on, leaves savings alone, and makes the vote stake the value of the whole balance |
| `AccountEffects.BuyRexMoves` | contracts/eosio.system/src/rex.cpp:57-72 | `buyrex` takes the amount out of the fund, buys, and then does the maintenance and claims a filled order |
| `AccountEffects.UnstakeToRexMoves` | contracts/eosio.system/src/rex.cpp:82-120 | `unstaketorex` moves stake of one delegation to the REX account and buys with it, then does the same |
| `AccountEffects.FundLoanMoves` | contracts/eosio.system/src/rex.cpp:857-868 | Only the creator of a loan that still runs pays into its balance, out of its fund |
| `AccountEffects.DefundLoanMoves` | contracts/eosio.system/src/rex.cpp:870-882 | And only it takes out again, no more than is there |
| `AccountEffects.RamTradeMoves` | contracts/eosio.system/src/rex.cpp:969-983 | The fee of a RAM trade becomes unlent tokens of an open pool, and moves nothing else of it; a closed pool takes none; the trade sets the receiver's quota and no weight |
| `AccountEffects.NamebidsMove` | contracts/eosio.system/src/rex.cpp:702-708 | So do the proceeds of closed auctions, once and in full |
| `AccountEffects.UpdateRexMoves` | contracts/eosio.system/src/rex.cpp:301-325 | `updaterex` makes the vote stake the value of the whole balance, claims a filled order and moves what is due to the matured part |
| `AccountEffects.MvToSavingsMoves` | contracts/eosio.system/src/rex.cpp:381-413 | After maintenance, exactly the amount enters savings, what is in an open order stays sellable, and no other balance moves |
| `AccountEffects.MvFrSavingsMoves` | contracts/eosio.system/src/rex.cpp:421-442 | Exactly the amount leaves savings, and becomes sellable at the end of the fourth full day |
| `AccountEffects.ConsolidateMoves` | contracts/eosio.system/src/rex.cpp:364-373 | Everything outside savings and an open order becomes sellable at the end of the fourth full day, and not before |
| `AccountEffects.CloseRexMoves` | contracts/eosio.system/src/rex.cpp:449-484 | `closerex` erases a fund that is empty unless its owner has a loan of either kind, and a balance only without REX |
| `AccountEffects.SetRexMoves` | contracts/eosio.system/src/rex.cpp:332-342 | `setrex` sets the rent connector of an existing pool to a positive value, and nothing else |
| `ActionProofs.BuySharesKeeps` | contracts/eosio.system/src/rex.cpp:1063-1159 | Buying with tokens already taken from the payer never aborts and turns them into lendable tokens: the invariant holds with nothing left on the way |
| `ActionProofs.SettleKeeps` | contracts/eosio.system/src/rex.cpp:939-961 | Claiming a filled order moves exactly its proceeds into the owner's fund |
| `ActionInv.WithdrawKeeps` | contracts/eosio.system/src/rex.cpp:36-49 | A withdrawal succeeds if and only if the settled fund covers it: the REX account never lacks the tokens |
| `ActionInv.SellRexKeeps` | contracts/eosio.system/src/rex.cpp:128-176 | Selling, at once or by queueing, keeps the invariant, including that open orders are covered by matured REX; what it moves is stated by `OrderEffects.SellMoves` |
| `ActionInv.CreateLoanKeeps` | contracts/eosio.system/src/rex.cpp:774-803 | A new loan keeps pool, totals and solvency in step, and ends within thirty days; no order is open then |
| `ActionInv.CloseRexKeeps` | contracts/eosio.system/src/rex.cpp:449-484 | Closing an account never removes the row behind an open order, a loan or a fund |
| `ActionInv.StepKeeps` | contracts/eosio.system/src/rex.cpp:16-484 | Every admissible action, performed or aborted, keeps the invariant |
| `ActionInv.RunKeeps` | contracts/eosio.system/src/rex.cpp:16-484 | Every run of admissible actions keeps the invariant |
| `StakeProofs.NettingConserves` | contracts/eosio.system/src/delegate_bandwidth.cpp:342-391 | Netting a stake change against a refund conserves the amount, leaves nothing negative to transfer, and the two "should never happen" checks on the refund hold; the row itself is stated by `StakeEffects.NettingMoves` |
| `StakeProofs.SameSignMeans` | contracts/eosio.system/src/delegate_bandwidth.cpp:245-247 | The sign check accepts exactly the deltas that are not of opposite sign |
| `StakeEffects.NettingMoves` | contracts/eosio.system/src/delegate_bandwidth.cpp:342-391 | An increase uses up what is pending of its resource first and a decrease adds to it; the row waits anew from the present second after any decrease, and goes on waiting as it did otherwise; it exists if and only if something is pending, and nobody else's changes |
| `StakeEffects.StakeMoves` | contracts/eosio.system/src/delegate_bandwidth.cpp:240-418 | A stake change moves exactly one delegation and the receiver's weights by the deltas, nets against the refund when undelegating or when delegating to oneself without transfer, and collects from the source exactly what the refund does not cover |
| `StakeEffects.DelegateMoves` | contracts/eosio.system/src/delegate_bandwidth.cpp:445-456 | `delegatebw` takes no negative and some positive amount, transfers stake only to others, and is that stake change |
| `StakeEffects.UndelegateMoves` | contracts/eosio.system/src/delegate_bandwidth.cpp:458-469 | `undelegatebw` needs an activated chain, and is the same change with both amounts negated and no transfer |
| `StakeEffects.VoteSyncMoves` | contracts/eosio.system/src/voting.cpp:193-196 | Voting first makes the vote stake of a holder of REX the value of its balance in whole units, and moves nothing else here |
| `StakeEffects.RefundMoves` | contracts/eosio.system/src/delegate_bandwidth.cpp:472-487 | A refund succeeds if and only if something is pending and 259200 seconds have passed since its time; it pays all of it and erases the row |
| `RefundHistory.ExecRefunds` | contracts/eosio.system/src/delegate_bandwidth.cpp:342-487 | What every admissible action does to the refund of every account: undelegating adds to it and restarts it, delegating to oneself uses it up, a refund pays all of it after three days, and nothing else touches it |
| `RefundHistory.UndelegatedIsRefunded` | contracts/eosio.system/src/delegate_bandwidth.cpp:342-487 | Over any run: all that an account undelegated was refunded, is pending or was delegated to itself again; and what it was refunded by any second is at most what it had undelegated 259200 seconds before |
| `StakeProofs.ChangeBandwidthKeeps` | contracts/eosio.system/src/delegate_bandwidth.cpp:240-418 | Delegating, undelegating and transferring stake keep the stake account equal to delegations plus refunds |
| `StakeProofs.ClaimRefundKeeps` | contracts/eosio.system/src/delegate_bandwidth.cpp:472-487 | A refund succeeds if and only if it exists and is due: it is always funded |
| `StakeProofs.UnstakeForRexKeeps` | contracts/eosio.system/src/rex.cpp:91-112 | Moving stake to REX succeeds if and only if the delegation covers it; the tokens moved are exactly those on their way into the pool |
| `StakeProofs.BidKeeps` | contracts/eosio.system/src/eosio.system.cpp:298-359 | A bid keeps the names account able to pay every bid refund, every open bid and the pool's proceeds |
| `StakeProofs.RefundBidKeeps` | contracts/eosio.system/src/eosio.system.cpp:361-371 | A bid refund succeeds if and only if one is owed: it is always funded |
| `StakeProofs.CloseAuctionKeeps` | contracts/eosio.system/src/producer_pay.cpp:57-73 | Closing keeps the invariant and moves exactly the highest open bid, if any, from the open bids to the pool's proceeds, and only when the time conditions hold |
| `StakeEffects.BidMoves` | contracts/eosio.system/src/eosio.system.cpp:298-359 | A bid is paid to the names account; against a standing one it must come from somebody else, while the auction is open, and be more than a tenth higher, and what it outbids is owed to whoever bid it, for that name, and to nobody else |
| `StakeEffects.BidAccepted` | contracts/eosio.system/src/eosio.system.cpp:298-359 | Such a bid succeeds if the bidder has the tokens |
| `StakeEffects.BidRefundMoves` | contracts/eosio.system/src/eosio.system.cpp:361-370 | A bid refund pays a former bidder what it is owed for the name, once |
| `StakeEffects.AuctionClosesWhen` | contracts/eosio.system/src/producer_pay.cpp:57-73 | With a highest open bid, the smallest name deciding between equals: it closes if and only if an auction is due and the bid has stood for more than a day; its amount then goes to an open pool |
| `StakeEffects.NothingCloses` | contracts/eosio.system/src/producer_pay.cpp:57-73 | Without an open bid nothing closes |
| `LockUp.Received` | contracts/eosio.system/src/rex.cpp:1125-1159 | Newly bought REX keeps the account's history bound: by any second, at most what was received on days that ended four days before can be sold |
| `LockUp.SoldMatured` | contracts/eosio.system/src/rex.cpp:138-140 | Selling matured REX keeps the same bound |
| `RexTheorems.CustodiansSolvent` | contracts/eosio.system/src/rex.cpp:884-961 | In every reachable state the REX account holds exactly funds + lendable + loan balances + unclaimed proceeds; the stake account exactly delegations + refunds; the names account at least what it owes |
| `RexTheorems.ReachableInv` | contracts/eosio.system/src/rex.cpp:16-982 | Every state reachable from an empty exchange satisfies the whole invariant |
| `RexTheorems.AmountsFit` | contracts/eosio.system/src/rex.cpp:1065-1072 | With a supply of at most 10^14 units, REX stays within 10^18 and asset limits, and the products of purchases, sales and valuations fit 128 bits |
| `RexTheorems.AllLoansExpire` | contracts/eosio.system/src/rex.cpp:710-742 | While loans are unavailable and all of a kind have expired, one pass long enough closes every one of them |
| `RexTheorems.AllOrdersFill` | contracts/eosio.system/src/rex.cpp:744-769 | With nothing lent, one pass over the queue fills every open order |
| `RexTheorems.ThirtyDayBound` | contracts/eosio.system/README.md:98 | Once any open order is thirty days old, one `rexexec` with a large enough maximum succeeds, closes every loan and fills every open order |
| `RexHistory.StepEvolves` | contracts/eosio.system/src/rex.cpp:586-598 | Every action keeps the share price from falling, only appends to histories, and lends nothing new while an order waits |
| `RexHistory.SharePriceNeverFalls` | contracts/eosio.system/src/rex.cpp:821-855 | Over any run that never empties the pool, S' * R >= S * R' for lendable S and REX R |
| `RexHistory.BoughtSharesOverRuns` | contracts/eosio.system/src/rex.cpp:1063-1114 | Shares bought at a price of at most one unit are worth at least the payment less one unit in every later state of such a run |
| `RexHistory.LockUpOverRuns` | contracts/eosio.system/README.md:78 | For every account and second, the REX sold or filled by then is at most the REX received on days that had ended four days before, whatever is consolidated or moved through savings |
| `RexHistory.HistoryGrows` | contracts/eosio.system/src/rex.cpp:69-71 | Histories are only appended to, over whole runs |
| `RexHistory.LentNeverGrowsWhileWaiting` | contracts/eosio.system/src/rex.cpp:586-598 | Over any run during which some order waits all the time, the lent total never rises |
| `RexContract.SystemContract.ProcessExpiredLoan` | contracts/eosio.system/src/rex.cpp:672-700 | In place, exactly the specified expiry or renewal, whose effect `LoanEffects.ExpireLoanMoves` states, and it fails exactly when that does |
| `RexContract.SystemContract.ProcessLoans` | contracts/eosio.system/src/rex.cpp:710-742 | The loop over the index by expiration computes the specified sequence of expiries |
| `RexContract.SystemContract.FillRexOrder` | contracts/eosio.system/src/rex.cpp:821-855 | In place, the specified redemption; when the pool cannot pay, nothing changes |
| `RexContract.SystemContract.ProcessOrders` | contracts/eosio.system/src/rex.cpp:744-769 | The loop over the index by time, with the next iterator taken before an order is closed, computes the specified sequence |
| `RexContract.SystemContract.RunRexStep` | contracts/eosio.system/src/rex.cpp:666-771 | The whole maintenance pass, in place |
| `RexContract.SystemContract.UpdateRexAccount` | contracts/eosio.system/src/rex.cpp:939-961 | Pays out and erases a filled order, or reports the REX in an open one |
| `RexContract.SystemContract.ProcessMaturities` | contracts/eosio.system/src/rex.cpp:1021-1030 | The loop that pops due buckets computes the specified balance |
| `RexContract.SystemContract.ReadSavings` | contracts/eosio.system/src/rex.cpp:1172-1183 | Returns the savings bucket and removes it, and only it |
| `RexContract.SystemContract.AddToRexPool` | contracts/eosio.system/src/rex.cpp:1063-1114 | The three branches of a purchase, in place |
| `RexContract.SystemContract.AddToRexBalance` | contracts/eosio.system/src/rex.cpp:1125-1159 | Credits bought REX through the savings bucket being set aside and put back |
| `RexContract.SystemContract.SumBuckets` | contracts/eosio.system/src/rex.cpp:1045-1048 | The emptying loop of consolidation totals all buckets |
| `RexContract.SystemContract.TakeBuckets` | contracts/eosio.system/src/rex.cpp:396-403 | The loop of `mvtosavings` takes from the latest buckets exactly what is asked, or all there is, and terminates |
| `RexContract.SystemContract.DoSellRex` | contracts/eosio.system/src/rex.cpp:128-176 | Sells at once or queues as specified, in the order of checks of the action; `OrderEffects.SellMoves` states what that moves |
| `RexContract.SystemContract.DoRent` | contracts/eosio.system/src/rex.cpp:774-803 | Rents after maintenance, if loans are available |
| `RexContract.SystemContract.DoMvToSavings` | contracts/eosio.system/src/rex.cpp:381-413 | Moves REX to savings around an open order |
| `RexContract.SystemContract.DoCloseRex` | contracts/eosio.system/src/rex.cpp:449-484 | Erases the fund and balance rows it may erase |
| `RexContract.SystemContract.UpdateResources` | contracts/eosio.system/src/rex.cpp:517-565 | Updates, creates or erases the weights row and fails exactly when the specification does |
| `RexContract.SystemContract.UpdateRefund` | contracts/eosio.system/src/delegate_bandwidth.cpp:342-391 | The reassigned net and cpu balances and the refund row are the specified netting, which `StakeEffects.NettingMoves` states on the rows |
| `RexContract.SystemContract.ChangeBw` | contracts/eosio.system/src/delegate_bandwidth.cpp:240-418 | The whole stake change, in place |
| `RexContract.SystemContract.DoCloseAuction` | contracts/eosio.system/src/producer_pay.cpp:57-73 | Closes the highest open bid of the index |
| `RexContract.SystemContract.Push` | contracts/eosio.system/src/rex.cpp:16-484 | One transaction: all of the action or nothing, and the invariant holds afterwards |
| `Exchange.Issued` | contracts/eosio.system/src/exchange_state.cpp:4-19 | The amount issued is the largest E with (S+E)^2 * C <= S^2 * (C+T), and never above the supply |
| `Exchange.ConvertRefinesBancor` | contracts/eosio.system/src/exchange_state.cpp:46-79 | Two hops leave the supply unchanged, take in exactly the amount, pay at most the one-hop Bancor amount, keep the paying connector positive, and never lower the product of the connectors |
| `Exchange.ConvertNearBancor` | contracts/eosio.system/src/exchange_state.cpp:46-79 | And they pay at least the one-hop Bancor amount less one unit and five parts in the supply of the paying connector |
| `Exchange.RoundTripNeverGains` | contracts/eosio.system/src/exchange_state.cpp:46-79 | Converting and converting back never returns more than was put in |
| `Exchange.ExchangeState.ConvertTo` | contracts/eosio.system/src/exchange_state.cpp:46-79 | The recursion on the mutated row ends after at most two conversions and is the specified one; it fails exactly for the intermediate token into itself |
| `RamMarket.RamSolvent` | contracts/eosio.system/src/eosio.system.cpp:65-101 | After any actions on a fresh market: quote >= its seed, the RAM account holds exactly the stake counter, which is the quote less its seed, and base plus all quotas is the RAM size |
| `RamMarket.QuoteAtLeastSeed` | contracts/eosio.system/src/delegate_bandwidth.cpp:202-203 | Under the product bound the stake counter cannot be negative |
| `RamMarket.SellRamKeeps` | contracts/eosio.system/src/delegate_bandwidth.cpp:179-230 | A sale succeeds if and only if the quota covers it and it yields more than one unit: the check that "shouldn't happen" never fires |
| `RamMarket.BuyRamKeeps` | contracts/eosio.system/src/delegate_bandwidth.cpp:107-171 | Buying RAM keeps the product bound and all the balances it links |
| `RamMarket.GrowKeeps` | contracts/eosio.system/src/eosio.system.cpp:72-82 | Enlarging the RAM size at any time keeps the product bound |
| `RamEffects.BuyMoves` | contracts/eosio.system/src/delegate_bandwidth.cpp:107-171 | The payer is charged the amount; half a percent of it, rounded up, goes to the pool of the exchange once that is open and to the fee account before; for the rest the receiver gets bytes at the price of the market, within the rounding of one conversion, after the release; quota, reserved bytes, stake and both connectors move by exactly that |
| `RamEffects.SellMoves` | contracts/eosio.system/src/delegate_bandwidth.cpp:179-230 | The seller's quota falls by the bytes and its tokens rise by their price less half a percent of it, which goes the same way; the market account pays the price |
| `RamEffects.BuyBytesMoves` | contracts/eosio.system/src/delegate_bandwidth.cpp:89-96 | Buying bytes is buying for what they would sell for before the release |
| `RamEffects.SizeMoves` | contracts/eosio.system/src/eosio.system.cpp:65-115 | The size grows if and only if the new one is above the old one and the reserved bytes and below 2^50, and the base connector with it; any 16-bit rate is taken, after releasing what the old one had earned |
| `RamTrades.ReleaseExact` | contracts/eosio.system/src/eosio.system.cpp:91 | New RAM is the rate times the blocks if and only if that product fits 32 bits; otherwise it is less |
| `RamTrades.ReleaseWraps` | contracts/eosio.system/src/eosio.system.cpp:91 | A run from a fresh market, with a 16-bit rate and 32-bit slots, after which the product wraps and no RAM is released |
| `RamTrades.BuyRamBytesDelivers` | contracts/eosio.system/src/delegate_bandwidth.cpp:86-96 | For any release of new RAM: at least the bytes asked for are delivered only if base * paid >= bytes * (quote + paid), and are delivered if that holds with a rounding allowance of five parts in the supply |
| `RamTrades.BuyRamBytesFallsShort` | contracts/eosio.system/src/delegate_bandwidth.cpp:86-96 | Without a release in between, strictly fewer bytes than asked for are delivered |
| `RamTrades.DeliversMore` | contracts/eosio.system/src/delegate_bandwidth.cpp:86-96 | A run after which a thousand bytes are asked for and 20265 delivered |
| `RamTrades.DeliversLess` | contracts/eosio.system/src/delegate_bandwidth.cpp:86-96 | A run with a release in between after which a thousand bytes are asked for and 332 delivered |
| `RamTrades.BuyThenSellLoses` | contracts/eosio.system/src/delegate_bandwidth.cpp:107-230 | Whoever buys quota and sells it in any later block, with any release and whether or not fees go to the pool, ends with strictly fewer tokens |
| `RamMarket.RamContract.DoBuyRam` | contracts/eosio.system/src/delegate_bandwidth.cpp:107-171 | The purchase, on the contract's own rows and market object |
| `RamMarket.RamContract.DoSellRam` | contracts/eosio.system/src/delegate_bandwidth.cpp:179-230 | The sale, on the contract's own rows and market object |
| `RamMarket.RamContract.DoBuyRamBytes` | contracts/eosio.system/src/delegate_bandwidth.cpp:89-96 | Prices on a copy of the market row, so pricing itself changes nothing |
| `RamMarket.RamContract.UpdateSupply` | contracts/eosio.system/src/eosio.system.cpp:85-101 | The release of new RAM, once per block |
| `RamMarket.RamContract.DoSetRam` | contracts/eosio.system/src/eosio.system.cpp:65-83 | Enlarging the market with the RAM size, in place, under the three checks |
| `RamMarket.RamContract.DoSetRamRate` | contracts/eosio.system/src/eosio.system.cpp:110-115 | Releases at the old rate up to the present block, then changes the rate |
| `Voting.HeightFalls` | contracts/eosio.system/src/voting.cpp:352-367 | Along every proxy edge of an acyclic graph the height falls: the measure of the propagation's recursion |
| `ProxyGraph.PropagateSucceeds` | contracts/eosio.system/src/voting.cpp:352-367 | On a sound proxy graph a propagation never fails its checks on proxies: it succeeds whenever the listed producers exist |
| `ProxyGraph.UpdateVotesProxies` | contracts/eosio.system/src/voting.cpp:203-322 | A vote leaves the proxy graph acyclic and registered proxies without a proxy, with no assumption on weights |
| `ProxyGraph.RecastProxies` | contracts/eosio.system/src/voting.cpp:317-321 | Pointing a voter to a registered proxy, keeping its proxy or dropping it cannot close a cycle |
| `ProxyGraph.ExecProxies` | contracts/eosio.system/src/voting.cpp:203-409 | Every voting or pay action keeps the proxy graph sound |
| `PayRuns.ProxiesAlwaysSound` | contracts/eosio.system/src/voting.cpp:352-367 | From an empty chain, after any actions whatsoever: no proxy cycle, no registered proxy uses a proxy, and the check at the head of the propagation cannot fail |
| `VotingInvariant.NewEdgeAcyclic` | contracts/eosio.system/src/voting.cpp:254-263 | An edge to an account without a proxy keeps the graph acyclic |
| `VotingInvariant.SharesGrow` | contracts/eosio.system/src/voting.cpp:126-152 | As time passes, the sum of all up-to-date shares grows by the sum of counted votes times the time |
| `VotingInvariant.ChangeVotesKeeps` | contracts/eosio.system/src/voting.cpp:276-312 | Whatever happened since a producer's last update, before or after the three-day cut-off, changing its votes keeps both global counters equal to the sums they stand for |
| `VotingInvariant.ClampKeepsPay` | contracts/eosio.system/src/voting.cpp:282-309 | Should the clamp at zero fire, the vote-pay counters stay exact if and only if the producer is past its three-day cut-off |
| `VotingInvariant.UpdateTotalShareKeeps` | contracts/eosio.system/src/voting.cpp:126-152 | Settling a loop's tab keeps the accounting exact, and neither clamp at zero fires |
| `VotingProofs.PropagateKeeps` | contracts/eosio.system/src/voting.cpp:352-409 | A propagation succeeds, keeps vote pay exact, and keeps every tally exact if and only if it drops no change of weight on its way |
| `VotingProofs.DroppedTally` | contracts/eosio.system/src/voting.cpp:359-360 | Ignoring a change keeps the tallies if and only if the change is zero or the voter supports nobody |
| `Drift.PropagateDrift` | contracts/eosio.system/src/voting.cpp:352-409 | On any sound proxy graph, a propagation moves no tally of a proxy or producer away from its sum by more than the one unit it may drop at its end |
| `Drift.DropsMean` | contracts/eosio.system/src/voting.cpp:359-360 | Nothing is counted as dropped if and only if the propagation is clean |
| `Drift.UpdateVotesDrift` | contracts/eosio.system/src/voting.cpp:203-322 | A vote moves no proxy's tally by more than the changes it drops, and no producer's by more than those and the weight lost to the clamp, to a missing row or to a negative weight |
| `Drift.TalliesWithin` | contracts/eosio.system/src/voting.cpp:203-409 | In every run from an empty chain: each proxy holds the weight of its users to within the number of dropped changes, each producer the weight of its direct voters to within what the run missed |
| `DroppedChanges.TallyFails` | contracts/eosio.system/src/voting.cpp:359-360 | A run of five admissible actions from an empty chain, with weights as at the start of their count, after which a producer has no votes and its one voter a weight of one |
| `DroppedChanges.PayFails` | contracts/eosio.system/src/voting.cpp:143-147 | Its continuation to eleven actions, for any stake of another voter: the producer has minus two votes, and the accounting is exact if and only if that stake is at least two |
| `DroppedChanges.ElectionFails` | contracts/eosio.system/src/voting.cpp:96-98 | Its continuation by one deactivation, for any stake of at least one: the scan elects the one eligible producer if and only if that stake is above two |
| `VoteCast.DeltasMean` | contracts/eosio.system/src/voting.cpp:236-272 | The collected deltas are, for every producer, the new support of the voter less the old one |
| `VoteCast.ApplyDeltasKeeps` | contracts/eosio.system/src/voting.cpp:277-313 | Each producer receives exactly its delta, and the clamp at zero never fires |
| `VoteCast.UpdateVotesKeeps` | contracts/eosio.system/src/voting.cpp:203-322 | Voting or refreshing a vote keeps every tally and the vote pay exact, when nothing is dropped on the way |
| `VoteCast.RegisterProxyKeeps` | contracts/eosio.system/src/voting.cpp:333-350 | Registering and unregistering a proxy keeps every tally and the vote pay exact |
| `VoteCast.ChangeStakeKeeps` | contracts/eosio.system/src/delegate_bandwidth.cpp:420-443 | A stake change with its vote refresh keeps every tally and the vote pay exact |
| `VoteEffects.PropagateReweighs` | contracts/eosio.system/src/voting.cpp:352-409 | A propagation leaves every row as it was or, if it is the first one or a proxy in use, with the weight of its stake at the present moment and of what it received if it is a registered proxy; it activates nothing |
| `VoteEffects.VoteMoves` | contracts/eosio.system/src/voting.cpp:203-322 | A vote or the refresh of one: at most thirty producers in ascending order, or a registered proxy other than the voter by a voter that is none; the voter's row then has that proxy, that list and the weight of its stake plus what it received as a proxy; its stake is activated if and only if its last weight was not positive; other rows change only as weights pass through them |
| `VoteEffects.ListedCandidates` | contracts/eosio.system/src/voting.cpp:277-313 | A vote lists only registered producers, and only active ones unless it is refreshed |
| `VoteEffects.RegProxyMoves` | contracts/eosio.system/src/voting.cpp:333-350 | Registering as a proxy or ceasing to be one stores the weight the row then has, and activates nothing |
| `VoteEffects.StakeVoteMoves` | contracts/eosio.system/src/delegate_bandwidth.cpp:420-443 | A stake change stores the new stake, never a negative one, gives a vote that was cast its weight at once, and activates the new stake if the last weight was not positive |
| `VoteEffects.ExecActivates` | contracts/eosio.system/src/voting.cpp:224-229 | Every action activates exactly the stake of a voter without a positive last weight, as it votes or its vote is refreshed, and nothing ever deactivates any |
| `ActivatedStake.ActivationKept` | contracts/eosio.system/src/voting.cpp:219-229 | As long as nobody else starts or stops counting, the activated stake stays the stake of the voters with a positive last weight if and only if a condition on the actor's row and the action holds, given for every action |
| `ActivatedStake.ActivatedExactly` | contracts/eosio.system/src/voting.cpp:219-229 | In every run from an empty chain in which every stake weighs something and does not change once it does, no proxy holds less than nothing, and nobody becomes a proxy with a stake that weighs nothing yet: the activated stake is the stake of the voters with a positive last weight, however often they vote |
| `ActivatedStake.CleanRunOrderly` | contracts/eosio.system/src/voting.cpp:219-229 | In runs that drop no change of weight no proxy ever holds less than nothing, so that such actions suffice |
| `ActivatedStake.NeverActivated` | contracts/eosio.system/src/voting.cpp:333-348 | A run of four actions from an empty chain, for any stake: its owner becomes a proxy and then votes; all of the stake counts for the producer, and none of it is activated |
| `VoteEffects.RegistrationMoves` | contracts/eosio.system/src/voting.cpp:34-86 | Registering and unregistering decide whether a producer is active, and leave votes, shares and blocks alone; a first registration counts as a claim |
| `VoteContract.VotingSystem.UpdateTotalVotepayShare` | contracts/eosio.system/src/voting.cpp:126-152 | The global counters, updated in place |
| `VoteContract.VotingSystem.SpreadToProducers` | contracts/eosio.system/src/voting.cpp:373-400 | The producer loop of a propagation, with the votes, shares and the tab it collects |
| `VoteContract.VotingSystem.PropagateWeightChange` | contracts/eosio.system/src/voting.cpp:352-409 | The mutating recursion along proxies terminates and is the specified propagation |
| `VoteContract.VotingSystem.ApplyProducerDeltas` | contracts/eosio.system/src/voting.cpp:277-313 | The producer loop of a vote, in ascending order of names |
| `VoteContract.VotingSystem.CollectVoteDeltas` | contracts/eosio.system/src/voting.cpp:236-272 | The two loops that fill the delta map |
| `VoteContract.VotingSystem.MoveVotes` | contracts/eosio.system/src/voting.cpp:219-321 | Activation, withdrawal, grant, producer loop and the new row, in the contract's order, as specified; the activation itself is stated by `VoteEffects.VoteMoves` |
| `VoteContract.VotingSystem.CastVotes` | contracts/eosio.system/src/voting.cpp:203-322 | The whole vote, in place |
| `VoteContract.VotingSystem.CheckVote` | contracts/eosio.system/src/voting.cpp:204-217 | Accepts exactly the votes that pass every check on the vote itself, with its loop over neighbouring names |
| `VoteContract.VotingSystem.DoRegProxy` | contracts/eosio.system/src/voting.cpp:333-350 | Proxy registration, in place |
| `VoteContract.VotingSystem.DoChangeStake` | contracts/eosio.system/src/delegate_bandwidth.cpp:420-443 | `update_voting_power`, in place |
| `VoteContract.VotingSystem.Fill` | contracts/eosio.system/src/producer_pay.cpp:94-125 | The bucket fill with its four inline actions |
| `VoteContract.VotingSystem.DoPayOut` | contracts/eosio.system/src/producer_pay.cpp:131-200 | The pay-out part of a claim, counters and transfers, as specified; the amounts are stated by `PayEffects.PayOutMoves` |
| `VoteContract.VotingSystem.DoOnBlock` | contracts/eosio.system/src/producer_pay.cpp:34-52 | The counting part of `onblock` |
| `VoteContract.VotingSystem.Push` | contracts/eosio.system/src/voting.cpp:34-409 | One transaction; the proxy graph is sound afterwards, and the accounting exact if nothing was dropped |
| `ProducerPay.SplitExact` | contracts/eosio.system/src/producer_pay.cpp:97-125 | Savings, block pay and vote pay add up exactly to the new tokens, and the system account keeps none |
| `ProducerPay.BlockPayBounded` | contracts/eosio.system/src/producer_pay.cpp:149-152 | Block pay is within its bucket, and a producer's unpaid blocks within the total, as soon as the books balance; its amount is stated by `PayEffects.PayOutMoves` |
| `ProducerPay.VotePayBounded` | contracts/eosio.system/src/producer_pay.cpp:160-172 | Vote pay is within its bucket; after the first revision the claimant's share is at most the global share, so the clamp never fires; before it, given an exact total of votes |
| `ProducerPay.PayOutSucceeds` | contracts/eosio.system/src/producer_pay.cpp:174-200 | Whatever the votes: a pay-out fails if and only if the vote pay exceeds its bucket, which cannot happen after the first revision; both pay accounts hold exactly the buckets afterwards; what is paid is stated by `PayEffects.PayOutMoves` |
| `ProducerPay.ClaimKeeps` | contracts/eosio.system/src/producer_pay.cpp:78-201 | A claim keeps buckets, unpaid blocks, shares and tallies exact |
| `ProducerPay.ExecBooks` | contracts/eosio.system/src/producer_pay.cpp:19-201 | Every admissible action, whatever it drops, keeps unpaid blocks adding up and the pay accounts equal to the buckets |
| `ProducerPay.ExecKeeps` | contracts/eosio.system/src/producer_pay.cpp:19-201 | Every admissible action that drops no change keeps the whole voting and pay invariant |
| `PayEffects.FillMoves` | contracts/eosio.system/src/producer_pay.cpp:91-125 | Filling issues 4.879 percent of the supply a year in whole units, a fifth of it for producers and a quarter of that by block, and puts each part where it belongs; it fails if and only if the tokens exceed what may still be issued or are fewer than twenty |
| `PayEffects.BlockMoves` | contracts/eosio.system/src/producer_pay.cpp:34-51 | From an activated stake of 150 million tokens on, the first block starts the pay, and each block of a registered producer counts one more unpaid block, its own and in total; before, nothing moves |
| `PayEffects.PayOutMoves` | contracts/eosio.system/src/producer_pay.cpp:131-200 | A pay-out raises the claimant's tokens by its part of the block bucket, that of its blocks in all unpaid blocks in whole units, and by its part of the vote bucket if that is at least 100 tokens: its accrued share over everybody's, within three days of its last claim, or before the first revision its votes over all votes. The buckets and their accounts fall by as much, its blocks and share are gone, and its row is up to date |
| `PayEffects.ClaimMoves` | contracts/eosio.system/src/producer_pay.cpp:78-201 | A claim succeeds only for an active producer, from an activated stake of 150 million tokens on, and more than a day after the last claim; then the buckets are filled and the pay-out is made from them. After the first revision such a claim fails only if the buckets cannot be filled |
| `PayEffects.RevisionMoves` | contracts/eosio.system/src/eosio.system.cpp:289-296 | The revision goes from 0 to 1 and no further |
| `PayRuns.PayAlwaysFunded` | contracts/eosio.system/src/producer_pay.cpp:19-201 | After any admissible actions: unpaid blocks add up, the pay accounts hold exactly the buckets, block pay is within its bucket, and after the first revision a claim succeeds if and only if its own checks and the filling of the buckets do |
| `PayRuns.TalliesExact` | contracts/eosio.system/src/voting.cpp:203-322 | In every state of a run that drops no change of weight, every producer holds the weight of its direct voters, every proxy that of its users, and the total is theirs; such a run also keeps vote pay exact |
| `PayRuns.CleanClaimsFunded` | contracts/eosio.system/src/producer_pay.cpp:160-201 | In every run that drops no change of weight, a claim succeeds if and only if its own checks and the filling of the buckets do, also before the first revision |
| `PayRuns.ShareWithinTotal` | contracts/eosio.system/src/producer_pay.cpp:160-167 | In every run that drives no counted votes below zero, a claimant's share is within the global share, so the clamp on vote pay never fires |
| `Aggregate.TurnLag` | contracts/eosio.system/src/voting.cpp:281-309 | One turn of a producer loop, with any votes and any lag before it: the global rate falls behind by what the clamp swallows of a counted row, the shares by what a late row with negative votes fails to lose, and by nothing else |
| `Aggregate.ChangeVotesExact` | contracts/eosio.system/src/voting.cpp:154-175 | Changing a producer's votes keeps the accounting equations if and only if its row is up to date, or its votes are not negative or not counted any more |
| `Aggregate.SettleLag` | contracts/eosio.system/src/voting.cpp:126-152 | Settling leaves the counters behind by no more than the sums themselves: that is all the two clamps at zero do |
| `Aggregate.PropagateEquations` | contracts/eosio.system/src/voting.cpp:352-409 | A propagation keeps the equations if and only if the sums over the rows where it lands are not negative and no late row is touched while shares are left; what it drops and whose votes turn negative does not matter |
| `Aggregate.PropagateFromPay` | contracts/eosio.system/src/voting.cpp:143-147 | From an exact accounting without negative votes: if and only if the counted votes it leaves do not sum to less than zero |
| `Aggregate.DeltasEquations` | contracts/eosio.system/src/voting.cpp:274-315 | The producer loop of a vote keeps the equations if and only if the sums it leaves are not negative, nothing is swallowed of a counted row unless no counted votes are left, and no late row is touched unless no shares are left |
| `Aggregate.ClaimEquations` | contracts/eosio.system/src/producer_pay.cpp:131-182 | A pay-out keeps the equations if and only if the sums it leaves are not negative and the claimant's row was not late unless no shares are left |
| `AggregateRuns.ExecEquations` | contracts/eosio.system/src/voting.cpp:203-409 | A whole action, a vote with its withdrawal, grant and loop included, keeps the equations if and only if the lag computed from the tables before it is nothing: so one stage may make good another |
| `AggregateRuns.ActionLevel` | contracts/eosio.system/src/voting.cpp:203-409 | An action whose stages each keep the equations keeps them; for registrations of proxies, claims and all other actions with one stage there is no other way |
| `AggregateRuns.CountersOverRuns` | contracts/eosio.system/src/voting.cpp:126-175 | After any actions whatever from an empty chain: the global counters are the sums they stand for less the run's lag, never negative, and uncounted shares are zero; so they are exact if and only if that lag is nothing |
| `AggregateRuns.ExactRunLevel` | contracts/eosio.system/src/voting.cpp:126-175 | A run all of whose stages are exact, whatever the sign of votes, leaves no lag |
| `AggregateRuns.SustainedRunLevel` | contracts/eosio.system/src/voting.cpp:126-175 | So does a run that drives no producer's votes below zero |
| `VotePayRuns.VoteLoopPay` | contracts/eosio.system/src/voting.cpp:274-315 | With nobody's votes negative before it, the producer loop of a vote keeps the accounting exact if and only if no counted producer is charged more than it holds, or no counted votes are left at all, both read off the tables before the loop |
| `VotePayRuns.ExecPay` | contracts/eosio.system/src/voting.cpp:203-409 | An action none of whose propagations leaves a listed producer with negative votes, and whose loop is exact, keeps the accounting exact and nobody's votes negative, with no assumption on tallies |
| `VotePayRuns.CleanSustained` | contracts/eosio.system/src/voting.cpp:203-409 | An action that drops no change of weight drives no votes below zero |
| `VotePayRuns.VotePayExact` | contracts/eosio.system/src/voting.cpp:126-175 | In every state of a run of such actions nobody's votes are negative, the global rate is the sum of the counted votes, the global share the sum of the up-to-date shares, and uncounted shares are zero |
| `Election.ScanIsBest` | contracts/eosio.system/src/voting.cpp:88-98 | The early-exit scan elects the best eligible producers, min(21, n) of them, if and only if no other row of the index comes before the seats are filled |
| `Election.NoNegativeVotes` | contracts/eosio.system/include/eosio.system/eosio.system.hpp:145 | With non-negative votes the scan is always exact |
| `Election.ElectionExact` | contracts/eosio.system/src/voting.cpp:88-98 | Whenever the vote-pay accounting is exact, hence in every run that drives no counted votes below zero, the scan is exact |
| `Election.ElectedMeans` | contracts/eosio.system/src/voting.cpp:88-98 | Without negative votes: the elected are active and have votes, they are in order of votes, no active producer has more votes than one of them without being elected, and they are 21 or all that could be elected |
| `Election.UpdateKeeps` | contracts/eosio.system/src/voting.cpp:100-117 | A round proposes exactly the elected, in ascending order of names, unless they are fewer than last time or the host refuses; then schedule and size stay; the size never shrinks |
| `Election.ScheduleNeverShrinks` | contracts/eosio.system/src/voting.cpp:100-117 | Over any sequence of elections the accepted size never shrinks |
| `Election.Scheduler.TopProducers` | contracts/eosio.system/src/voting.cpp:96-98 | The scan loop is the specified scan |
| `Election.Scheduler.UpdateElectedProducers` | contracts/eosio.system/src/voting.cpp:88-118 | The whole update, in place |
| `Token.SupplyIsSum` | contracts/eosio.token/src/eosio.token.cpp:32-137 | After any token actions the supply is the sum of all balances and within its maximum, so no balance exceeds either |
| `Token.MoveIsTransfer` | contracts/eosio.token/src/eosio.token.cpp:87-137 | In such a state the overflow checks never fire: a transfer succeeds exactly as the other components assume |
| `Token.ExecKeeps` | contracts/eosio.token/src/eosio.token.cpp:11-168 | Create, issue, retire, transfer, open and close keep supply = sum of balances |
| `Token.ExecMoves` | contracts/eosio.token/src/eosio.token.cpp:10-168 | Each action that succeeds moves exactly the supply and the balances it names, and had what it needs: a positive quantity, covered by the balance or by the maximum supply |
| `Token.TokenContract.IssueTokens` | contracts/eosio.token/src/eosio.token.cpp:32-60 | Issue, in place, with its inline transfer |
| `Token.TokenContract.RetireTokens` | contracts/eosio.token/src/eosio.token.cpp:62-85 | Retire, in place: the supply is lowered before the balance is checked |

## Left out

- VotePayRuns.ExecPay: one direction, stage by stage; that a negative withdrawal may be made good by the grant of the same vote is characterised for the equations only, by `AggregateRuns.ExecEquations`.
- VotePayRuns.VotePayExact: excludes runs in which votes turn negative while the equations hold; `AggregateRuns.CountersOverRuns` covers every run.
- Drift.TalliesWithin: bounds the tallies of proxies and producers; the total of all votes has no such bound here.
- VoteCast.UpdateVotesKeeps: states the tallies for votes whose two propagations drop nothing; a dropped withdrawal can be made good by a dropped grant, and that compensation is not characterised.
- ActivatedStake.ActivatedExactly: covers runs of orderly actions; what any other action does to the difference is stated for that action alone, by `ActivatedStake.ActivationKept`.
- PayRuns.TalliesExact: covers runs that drop no change of weight, because a dropped change leaves a tally different from its sum.
- RamTrades.BuyRamBytesDelivers: between its two conditions lies the rounding of one conversion, five parts in the supply of the base connector, where it does not decide.
- RexContract.SystemContract.UpdateRexAccount: leaves the update of the owner's voting power at its end to the flag of the calling action.
- RexProofs.RunRexKeeps: the maximum is any number, where the contract takes 16 bits.
- ProducerPay.ExecKeeps: `voteproducer` with its update of the REX stake is two actions here, `SyncRexStake` and `Vote`; the voting requirement of REX holders is not part of it.
- VoteContract.VotingSystem.DoRegProducer: leaves out the branch that creates a missing second producer row, which belongs to upgrades from an older contract.
- Rounding of floating-point powers, products and quotients: exact arithmetic stands in for it.
- That `staked` equals own delegations plus the vote stake of REX: `unstaketorex` discards a gain, so the code does not keep it.
- Authorisation, RAM billing and payers, symbols and memos, deferred transactions, trace output and serialisation: services of the host.
- The resource limits the host is told (`set_resource_limits`), and accounts whose limits are managed by hand.
- The time at which the activation threshold was reached, and the vesting rule of the account `b1`.
- `setacctram`, `setacctnet`, `setacctcpu`, `setparams`, `setpriv`, `setabi`, `rmvproducer` and the naming rules of `newaccount`: flat branching without further state.
- `eosio.msig`, `eosio.wrap` and `eosio.bios`: wrappers around authorisation checks of the host.
