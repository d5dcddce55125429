/** What delegating, undelegating and refunding does to rows and tokens, in numbers; and what becomes
    of everything an account undelegated, over runs. */
module StakeEffects {
  import opened Basics
  import opened Tables
  import opened Ledger
  import opened RexPool
  import opened Rex
  import opened Staking
  import opened Actions
  import opened RexInvariant
  import opened RexProofs
  import opened StakeProofs

  // ---------- refunds ----------

  function PendingNet(refunds: map<Name, Refund>, n: Name): int {
    if n in refunds then refunds[n].net else 0
  }

  function PendingCpu(refunds: map<Name, Refund>, n: Name): int {
    if n in refunds then refunds[n].cpu else 0
  }

  /** A stake change nets against the refund of `from`: an increase first uses up what is pending, a
      decrease adds to it. What is pending waits anew from `second` on after any decrease, and goes on
      waiting as it did otherwise. */
  ghost predicate Netted(refunds: map<Name, Refund>, refunds1: map<Name, Refund>, from: Name, second: nat, net: int,
      cpu: int) {
    && PendingNet(refunds1, from) == Max(0, PendingNet(refunds, from) - net)
    && PendingCpu(refunds1, from) == Max(0, PendingCpu(refunds, from) - cpu)
    && (from in refunds1 <==> PendingNet(refunds1, from) != 0 || PendingCpu(refunds1, from) != 0)
    && (from in refunds1 ==>
          if net < 0 || cpu < 0 then refunds1[from].time == second
          else from in refunds && refunds1[from].time == refunds[from].time)
    && (forall n | n != from :: (n in refunds1 <==> n in refunds) && (n in refunds ==> refunds1[n] == refunds[n]))
  }

  /** What the refund does not cover has to be paid. */
  function Uncovered(refunds: map<Name, Refund>, from: Name, net: int, cpu: int): nat {
    Max(0, net - PendingNet(refunds, from)) + Max(0, cpu - PendingCpu(refunds, from))
  }

  lemma NettingMoves(refunds: map<Name, Refund>, from: Name, second: nat, net: int, cpu: int)
    requires RefundsInv(refunds) && (net != 0 || cpu != 0) && SameSign(net, cpu)
    requires from in refunds || net < 0 || cpu < 0
    ensures var (refunds1, netLeft, cpuLeft) := NetAgainstRefund(refunds, from, second, net, cpu);
      Netted(refunds, refunds1, from, second, net, cpu) && netLeft + cpuLeft == Uncovered(refunds, from, net, cpu)
  {
  }

  /** Only `payer` and the stake account hold other amounts. */
  ghost predicate Paid(tokens: map<Name, nat>, tokens1: map<Name, nat>, payer: Name, payee: Name, amount: int) {
    forall n: Name ::
      Holds(tokens1, n) == Holds(tokens, n) - (if n == payer then amount else 0) + (if n == payee then amount else 0)
  }

  /** Only the delegation from `from` to `to` changed. */
  ghost predicate Delegates(d: map<(Name, Name), Delegation>, d1: map<(Name, Name), Delegation>, from: Name, to: Name,
      net: int, cpu: int) {
    forall a: Name, b: Name ::
      var w, w1 := Weights(d, a, b), Weights(d1, a, b);
      w1.net == w.net + (if a == from && b == to then net else 0)
      && w1.cpu == w.cpu + (if a == from && b == to then cpu else 0)
  }

  /** A stake change: from whom to whom, what the refund takes up, and who pays the rest. */
  ghost predicate StakeMoved(s: State, s1: State, source: Name, receiver: Name, net: int, cpu: int, transfer: bool) {
    var from := if transfer then receiver else source;
    && Delegates(s.delegations, s1.delegations, from, receiver, net, cpu)
    && (forall r: Name ::
          && NetWeight(s1.totals, r) == NetWeight(s.totals, r) + (if r == receiver then net else 0)
          && CpuWeight(s1.totals, r) == CpuWeight(s.totals, r) + (if r == receiver then cpu else 0))
    && (if net + cpu < 0 || (!transfer && source == receiver) then
          && (from in s.refunds || net < 0 || cpu < 0 ==>
                Netted(s.refunds, s1.refunds, from, Seconds(s.now), net, cpu))
          && (from !in s.refunds && net >= 0 && cpu >= 0 ==> s1.refunds == s.refunds)
          && Paid(s.tokens, s1.tokens, source, STAKE_ACCOUNT, Uncovered(s.refunds, from, net, cpu))
        else s1.refunds == s.refunds && Paid(s.tokens, s1.tokens, source, STAKE_ACCOUNT, net + cpu))
    && s1 == s.(delegations := s1.delegations, totals := s1.totals, refunds := s1.refunds, tokens := s1.tokens,
                balances := s1.balances)
    && s1.balances.Keys == s.balances.Keys
    && (forall n | n in s.balances ::
          s1.balances[n]
            == if n == from then s.balances[n].(voteStake := s1.balances[n].voteStake) else s.balances[n])
  }

  lemma StakeMoves(s: State, source: Name, receiver: Name, net: int, cpu: int, transfer: bool)
    requires Inv(s, 0) && ChangeBandwidth(s, source, receiver, net, cpu, transfer).Ok? && source != STAKE_ACCOUNT
    ensures StakeMoved(s, ChangeBandwidth(s, source, receiver, net, cpu, transfer).value, source, receiver, net, cpu,
      transfer)
  {
    hide Inv, ChangeDelegation, UpdateTotals, SettleStake, SyncVoteStake, Netted, Paid, Seconds, Transfer, Delegates,
         NetWeight, CpuWeight;
    var from := if transfer then receiver else source;
    var delegations := ChangeDelegation(s.delegations, from, receiver, net, cpu).value;
    var totals := UpdateTotals(s.totals, receiver, net, cpu).value;
    DelegationMoves(s.delegations, from, receiver, net, cpu);
    UpdateTotalsChecks(s.totals, receiver, net, cpu);
    UpdateTotalsEffect(s.totals, receiver, net, cpu);
    var s0 := s.(delegations := delegations, totals := totals);
    assert RefundsInv(s.refunds) by { RefundsOf(s); }
    SettleMovesStake(s0, source, from, receiver, net, cpu, transfer);
    var (refunds, tokens) := SettleStake(s0, source, from, receiver, net, cpu, transfer).value;
    SyncMoves(s0.(refunds := refunds, tokens := tokens), from);
  }

  /** `delegatebw`: nothing negative and something positive, and the stake is only given away to others. */
  lemma DelegateMoves(s: State, owner: Name, receiver: Name, net: int, cpu: int, transfer: bool, voteOk: bool)
    requires Inv(s, 0) && owner != STAKE_ACCOUNT
    requires Exec(s, Delegate(owner, receiver, net, cpu, transfer, voteOk)).Ok?
    ensures net >= 0 && cpu >= 0 && net + cpu > 0 && (transfer ==> owner != receiver) && voteOk
    ensures StakeMoved(s, Exec(s, Delegate(owner, receiver, net, cpu, transfer, voteOk)).value, owner, receiver, net,
      cpu, transfer)
  {
    hide Inv, ChangeBandwidth, StakeMoved;
    StakeMoves(s, owner, receiver, net, cpu, transfer);
  }

  /** `undelegatebw`: the same the other way round, once the chain is activated. */
  lemma UndelegateMoves(s: State, owner: Name, receiver: Name, net: int, cpu: int, activated: bool, voteOk: bool)
    requires Inv(s, 0) && owner != STAKE_ACCOUNT
    requires Exec(s, Undelegate(owner, receiver, net, cpu, activated, voteOk)).Ok?
    ensures net >= 0 && cpu >= 0 && net + cpu > 0 && activated && voteOk
    ensures StakeMoved(s, Exec(s, Undelegate(owner, receiver, net, cpu, activated, voteOk)).value, owner, receiver,
      -net, -cpu, false)
  {
    hide Inv, ChangeBandwidth, StakeMoved;
    StakeMoves(s, owner, receiver, -net, -cpu, false);
  }

  lemma RefundsOf(s: State)
    requires Inv(s, 0)
    ensures RefundsInv(s.refunds)
  {
    hide SumOf, RefundsInv;
  }

  lemma DelegationMoves(d: map<(Name, Name), Delegation>, from: Name, to: Name, net: int, cpu: int)
    requires ChangeDelegation(d, from, to, net, cpu).Ok?
    ensures Delegates(d, ChangeDelegation(d, from, to, net, cpu).value, from, to, net, cpu)
  {
  }

  lemma SettleMovesStake(s: State, source: Name, from: Name, receiver: Name, net: int, cpu: int, transfer: bool)
    requires RefundsInv(s.refunds) && (net != 0 || cpu != 0) && SameSign(net, cpu) && source != STAKE_ACCOUNT
    requires from == if transfer then receiver else source
    requires SettleStake(s, source, from, receiver, net, cpu, transfer).Ok?
    ensures var (refunds, tokens) := SettleStake(s, source, from, receiver, net, cpu, transfer).value;
      if net + cpu < 0 || (!transfer && source == receiver) then
        && (from in s.refunds || net < 0 || cpu < 0 ==> Netted(s.refunds, refunds, from, Seconds(s.now), net, cpu))
        && (from !in s.refunds && net >= 0 && cpu >= 0 ==> refunds == s.refunds)
        && Paid(s.tokens, tokens, source, STAKE_ACCOUNT, Uncovered(s.refunds, from, net, cpu))
      else refunds == s.refunds && Paid(s.tokens, tokens, source, STAKE_ACCOUNT, net + cpu)
  {
    hide Netted, NetAgainstRefund, Transfer, Seconds, RefundsInv, Paid, Uncovered;
    var nets := net + cpu < 0 || (!transfer && source == receiver);
    if nets && (from in s.refunds || net < 0 || cpu < 0) {
      NettingMoves(s.refunds, from, Seconds(s.now), net, cpu);
    } else if nets {
      NothingToNet(s.refunds, from, Seconds(s.now), net, cpu);
    } else {
      SameSignMeans(net, cpu);
    }
    var owed := if nets then Uncovered(s.refunds, from, net, cpu) else net + cpu;
    if owed > 0 {
      PaidBy(s.tokens, source, STAKE_ACCOUNT, owed);
    } else {
      NothingPaid(s.tokens, source, STAKE_ACCOUNT);
    }
  }

  lemma NothingPaid(tokens: map<Name, nat>, payer: Name, payee: Name)
    ensures Paid(tokens, tokens, payer, payee, 0)
  {
  }

  lemma NothingToNet(refunds: map<Name, Refund>, from: Name, second: nat, net: int, cpu: int)
    requires from !in refunds && net >= 0 && cpu >= 0
    ensures NetAgainstRefund(refunds, from, second, net, cpu) == (refunds, net, cpu)
    ensures Uncovered(refunds, from, net, cpu) == net + cpu
  {
  }

  /** Syncing sets the vote stake of `owner`, and nothing else. */
  lemma SyncMoves(s: State, owner: Name)
    requires SyncVoteStake(s, owner).Ok?
    ensures var s1 := SyncVoteStake(s, owner).value;
      && s1 == s.(balances := s1.balances) && s1.balances.Keys == s.balances.Keys
      && (forall n | n in s.balances ::
            s1.balances[n]
              == if n == owner then s.balances[n].(voteStake := s1.balances[n].voteStake) else s.balances[n])
      && (owner in s.balances && s.pool.Some? && s.pool.value.rex > 0 ==>
            Rounded(s1.balances[owner].voteStake, s.balances[owner].rex * s.pool.value.lendable, s.pool.value.rex))
  {
    if owner in s.balances && s.pool.Some? && s.pool.value.rex > 0 {
      ValueRounds(s.pool.value, s.balances[owner].rex);
    }
  }

  /** `voteproducer` brings the vote stake of a holder of REX up to date before it votes. */
  lemma VoteSyncMoves(s: State, owner: Name)
    requires Exec(s, VoteProducer(owner)).Ok?
    ensures var s1 := Exec(s, VoteProducer(owner)).value;
      && s1 == s.(balances := s1.balances) && s1.balances.Keys == s.balances.Keys
      && (forall n | n in s.balances ::
            s1.balances[n]
              == if n == owner then s.balances[n].(voteStake := s1.balances[n].voteStake) else s.balances[n])
      && (owner in s.balances && s.pool.Some? && s.pool.value.rex > 0 ==>
            Rounded(s1.balances[owner].voteStake, s.balances[owner].rex * s.pool.value.lendable, s.pool.value.rex))
  {
    hide SyncVoteStake, Rounded;
    SyncMoves(s, owner);
  }

  /** `refund`: three days after the last undelegation, everything that is pending is paid. */
  lemma RefundMoves(s: State, owner: Name)
    requires Inv(s, 0) && owner != STAKE_ACCOUNT && owner != REX_ACCOUNT
    ensures Exec(s, Refunding(owner)).Ok? <==>
      owner in s.refunds && s.refunds[owner].time * 1_000_000 + 259_200_000_000 <= s.now
    ensures Exec(s, Refunding(owner)).Ok? ==>
      var s1 := Exec(s, Refunding(owner)).value;
      && s1.refunds == s.refunds - {owner} && s1 == s.(refunds := s1.refunds, tokens := s1.tokens)
      && Paid(s.tokens, s1.tokens, STAKE_ACCOUNT, owner, PendingNet(s.refunds, owner) + PendingCpu(s.refunds, owner))
  {
    hide Inv, Transfer;
    ClaimRefundKeeps(s, owner);
    if owner in s.refunds && Exec(s, Refunding(owner)).Ok? {
      TransferMoves(s.tokens, STAKE_ACCOUNT, owner, s.refunds[owner].net + s.refunds[owner].cpu);
    }
  }

  // ---------- moving stake to the exchange ----------

  /** `unstaketorex` before it buys: stake leaves one delegation, its tokens go to the REX account. */
  lemma UnstakeMoves(s: State, owner: Name, receiver: Name, net: int, cpu: int)
    requires UnstakeForRex(s, owner, receiver, net, cpu).Ok? && net >= 0 && cpu >= 0 && net + cpu > 0
    ensures var s1 := UnstakeForRex(s, owner, receiver, net, cpu).value;
      && Delegates(s.delegations, s1.delegations, owner, receiver, -net, -cpu)
      && (forall r: Name ::
            && NetWeight(s1.totals, r) == NetWeight(s.totals, r) - (if r == receiver then net else 0)
            && CpuWeight(s1.totals, r) == CpuWeight(s.totals, r) - (if r == receiver then cpu else 0))
      && Paid(s.tokens, s1.tokens, STAKE_ACCOUNT, REX_ACCOUNT, net + cpu)
      && s1 == s.(delegations := s1.delegations, totals := s1.totals, tokens := s1.tokens)
  {
    hide ChangeDelegation, UpdateTotals, Delegates, NetWeight, CpuWeight, Transfer;
    DelegationMoves(s.delegations, owner, receiver, -net, -cpu);
    UpdateTotalsChecks(s.totals, receiver, -net, -cpu);
    UpdateTotalsEffect(s.totals, receiver, -net, -cpu);
    TransferMoves(s.tokens, STAKE_ACCOUNT, REX_ACCOUNT, net + cpu);
  }

  // ---------- the name auction ----------

  /** What the contract owes a former highest bidder of a name. */
  function Owed(bidRefunds: map<(Name, Name), int>, newname: Name, bidder: Name): int {
    if (newname, bidder) in bidRefunds then bidRefunds[(newname, bidder)] else 0
  }

  /** `bidname`: a first bid is positive; a later one comes from somebody else, while the auction is
      open, and is more than a tenth higher. The bid is paid to the names account, and what it outbids
      is owed to whoever bid it. */
  lemma BidMoves(s: State, bidder: Name, newname: Name, bid: int, nameOk: bool)
    requires Exec(s, BidName(bidder, newname, bid, nameOk)).Ok?
    ensures var s1 := Exec(s, BidName(bidder, newname, bid, nameOk)).value;
      && nameOk && bid > 0 && Paid(s.tokens, s1.tokens, bidder, NAMES_ACCOUNT, bid)
      && s1 == s.(tokens := s1.tokens, bids := s.bids[newname := NameBid(bidder, bid, s.now)],
                  bidRefunds := s1.bidRefunds)
      && (newname in s.bids ==>
            && s.bids[newname].highBid > 0 && s.bids[newname].bidder != bidder
            && 10 * (bid - s.bids[newname].highBid) > s.bids[newname].highBid)
      && (forall m: Name, b: Name :: Owed(s1.bidRefunds, m, b) == Owed(s.bidRefunds, m, b)
            + (if m == newname && newname in s.bids && b == s.bids[newname].bidder then s.bids[newname].highBid else 0))
  {
    hide Transfer, Paid, Owed;
    assert Transfer(s.tokens, bidder, NAMES_ACCOUNT, bid).Ok?;
    assert Paid(s.tokens, Transfer(s.tokens, bidder, NAMES_ACCOUNT, bid).value, bidder, NAMES_ACCOUNT, bid) by {
      PaidBy(s.tokens, bidder, NAMES_ACCOUNT, bid);
    }
    if newname in s.bids {
      OwedMore(s.bidRefunds, newname, s.bids[newname].bidder, s.bids[newname].highBid);
    }
  }

  lemma PaidBy(tokens: map<Name, nat>, from: Name, to: Name, amount: int)
    requires Transfer(tokens, from, to, amount).Ok?
    ensures Paid(tokens, Transfer(tokens, from, to, amount).value, from, to, amount) && amount > 0
  {
    TransferMoves(tokens, from, to, amount);
  }

  lemma OwedMore(bidRefunds: map<(Name, Name), int>, newname: Name, bidder: Name, amount: int)
    ensures var key := (newname, bidder);
      var after := bidRefunds[key := (if key in bidRefunds then bidRefunds[key] else 0) + amount];
      forall m: Name, b: Name ::
        Owed(after, m, b) == Owed(bidRefunds, m, b) + (if m == newname && b == bidder then amount else 0)
  {
  }

  /** Such a bid is never refused, if the bidder has the tokens. */
  lemma BidAccepted(s: State, bidder: Name, newname: Name, bid: int)
    requires bid > 0 && bidder != NAMES_ACCOUNT && Holds(s.tokens, bidder) >= bid
    requires newname in s.bids ==>
      && s.bids[newname].highBid > 0 && s.bids[newname].bidder != bidder
      && 10 * (bid - s.bids[newname].highBid) > s.bids[newname].highBid
    ensures Exec(s, BidName(bidder, newname, bid, true)).Ok?
  {
  }

  /** `bidrefund` pays a former bidder what it is owed for the name, once. */
  lemma BidRefundMoves(s: State, bidder: Name, newname: Name)
    requires Exec(s, BidRefund(bidder, newname)).Ok?
    ensures var s1 := Exec(s, BidRefund(bidder, newname)).value;
      && Owed(s.bidRefunds, newname, bidder) > 0
      && Paid(s.tokens, s1.tokens, NAMES_ACCOUNT, bidder, Owed(s.bidRefunds, newname, bidder))
      && s1 == s.(tokens := s1.tokens, bidRefunds := s1.bidRefunds)
      && (forall m: Name, b: Name ::
            Owed(s1.bidRefunds, m, b) == if m == newname && b == bidder then 0 else Owed(s.bidRefunds, m, b))
  {
    hide Transfer;
    PaidBy(s.tokens, NAMES_ACCOUNT, bidder, s.bidRefunds[(newname, bidder)]);
  }

  /** The highest open bid; the smallest name decides between equals. */
  ghost predicate Highest(bids: map<Name, NameBid>, n: Name) {
    && n in bids && bids[n].highBid > 0
    && (forall m | m in bids && m != n ::
          bids[m].highBid < bids[n].highBid || (bids[m].highBid == bids[n].highBid && n < m))
  }

  /** An auction closes if and only if one is due and the highest open bid has stood for more than a
      day: its name is then no longer open for bids, and its amount goes to an open pool. */
  lemma AuctionClosesWhen(s: State, due: bool, n: Name)
    requires Highest(s.bids, n)
    ensures CloseAuction(s, due) ==
      if !due || s.now - s.bids[n].lastBid <= 86_400_000_000 then s
      else s.(
        bids := s.bids[n := s.bids[n].(highBid := -s.bids[n].highBid)],
        pool := if s.pool.Some? && s.pool.value.rex > 0
                then Some(s.pool.value.(namebidProceeds := s.pool.value.namebidProceeds + s.bids[n].highBid))
                else s.pool)
  {
    hide Least, IsLeast, ByHighBid, Highest, CloseAuction;
    FirstIs(s, n);
    ClosesFirst(s, due);
  }

  lemma FirstIs(s: State, n: Name)
    requires Highest(s.bids, n)
    ensures var open := set m | m in s.bids.Keys && s.bids[m].highBid > 0;
      open != {} && Least(open, ByHighBid(s.bids)) == n
  {
    hide Least, IsLeast, ByHighBid, Highest;
    var open := set m | m in s.bids.Keys && s.bids[m].highBid > 0;
    HighestIsFirst(s.bids, open);
    assert n in open by { HighestOpen(s.bids, n); }
  }

  lemma ClosesFirst(s: State, due: bool)
    ensures var open := set m | m in s.bids.Keys && s.bids[m].highBid > 0;
      open != {} ==>
        var n := Least(open, ByHighBid(s.bids));
        n in s.bids
        && CloseAuction(s, due) == if due && s.now - s.bids[n].lastBid > 86_400_000_000 then Closed(s, n) else s
  {
    hide Least, ByHighBid, Closed;
  }

  lemma HighestOpen(bids: map<Name, NameBid>, n: Name)
    requires Highest(bids, n)
    ensures n in bids && bids[n].highBid > 0
  {
  }

  /** Without an open bid nothing closes. */
  lemma NothingCloses(s: State, due: bool)
    requires forall n | n in s.bids :: s.bids[n].highBid <= 0
    ensures CloseAuction(s, due) == s
  {
    hide Least;
    assert (set m | m in s.bids.Keys && s.bids[m].highBid > 0) == {};
  }

  lemma HighestIsFirst(bids: map<Name, NameBid>, open: set<Name>)
    requires open == set n | n in bids.Keys && bids[n].highBid > 0
    ensures open == {} ==> forall n :: !Highest(bids, n)
    ensures open != {} ==> forall n :: Highest(bids, n) <==> n == Least(open, ByHighBid(bids))
  {
    forall n | Highest(bids, n)
      ensures n in open
    {
    }
    if open != {} {
      var first := Least(open, ByHighBid(bids));
      forall m | m in bids && m != first
        ensures bids[m].highBid < bids[first].highBid || (bids[m].highBid == bids[first].highBid && first < m)
      {
        assert bids[m].highBid > 0 ==> m in open;
      }
      assert Highest(bids, first);
    }
  }
}
