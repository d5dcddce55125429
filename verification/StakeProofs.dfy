/** The staking ledger and the name auction keep the invariant. */
module StakeProofs {
  import opened Basics
  import opened Tables
  import opened Ledger
  import opened RexPool
  import opened Rex
  import opened Staking
  import opened RexInvariant
  import opened RexProofs
  import opened ActionProofs

  // ---------- delegations and refunds ----------

  lemma DelegationSums(d: map<(Name, Name), Delegation>, from: Name, to: Name, net: int, cpu: int)
    requires DelegationsInv(d) && ChangeDelegation(d, from, to, net, cpu).Ok?
    ensures var d1 := ChangeDelegation(d, from, to, net, cpu).value;
      && DelegationsInv(d1)
      && SumOf(d1, Delegated) == SumOf(d, Delegated) + net + cpu
      && (forall r: Name :: SumOf(d1, NetTo(r)) == SumOf(d, NetTo(r)) + (if r == to then net else 0))
      && (forall r: Name :: SumOf(d1, CpuTo(r)) == SumOf(d, CpuTo(r)) + (if r == to then cpu else 0))
  {
    hide SumOf;
    var k := (from, to);
    var row := Weights(d, from, to);
    var row1 := row.(net := row.net + net, cpu := row.cpu + cpu);
    var d1 := ChangeDelegation(d, from, to, net, cpu).value;
    SumStore(d, Delegated, k, row1);
    SumErase(d, Delegated, k);
    forall r: Name
      ensures SumOf(d1, NetTo(r)) == SumOf(d, NetTo(r)) + (if r == to then net else 0)
      ensures SumOf(d1, CpuTo(r)) == SumOf(d, CpuTo(r)) + (if r == to then cpu else 0)
    {
      SumStore(d, NetTo(r), k, row1);
      SumErase(d, NetTo(r), k);
      SumStore(d, CpuTo(r), k, row1);
      SumErase(d, CpuTo(r), k);
    }
  }

  /** Netting against a refund never makes it negative, and splits the stake change exactly into
      what the refund absorbs and what is left to transfer. */
  lemma NettingConserves(refunds: map<Name, Refund>, from: Name, second: nat, net: int, cpu: int)
    requires RefundsInv(refunds)
    ensures var (refunds1, netLeft, cpuLeft) := NetAgainstRefund(refunds, from, second, net, cpu);
      && RefundsInv(refunds1)
      && netLeft + cpuLeft == net + cpu + SumOf(refunds1, Pending) - SumOf(refunds, Pending)
      && netLeft >= 0 && cpuLeft >= 0
  {
    hide SumOf;
    var (refunds1, netLeft, cpuLeft) := NetAgainstRefund(refunds, from, second, net, cpu);
    if from in refunds {
      var r := refunds[from];
      var r1 := Refund(if net < 0 || cpu < 0 then second else r.time, Absorb(r.net, net).0, Absorb(r.cpu, cpu).0);
      SumStore(refunds, Pending, from, r1);
      SumErase(refunds, Pending, from);
    } else {
      SumStore(refunds, Pending, from, Refund(second, Max(0, -net), Max(0, -cpu)));
    }
  }

  /** The sign check accepts exactly changes whose parts do not have opposite signs. */
  lemma SameSignMeans(net: int, cpu: int)
    ensures SameSign(net, cpu) <==> !((net < 0 && cpu > 0) || (net > 0 && cpu < 0))
  {
  }

  /** Replacing the tables of the ledger. */
  lemma LedgerTablesKeep(
    s: State, delegations: map<(Name, Name), Delegation>, totals: map<Name, Totals>, refunds: map<Name, Refund>,
    tokens: map<Name, nat>, slack: int, slack1: int)
    requires Core(s, slack) && DelegationsInv(delegations) && RefundsInv(refunds)
    requires ResourcesInv(totals, delegations, s.cpuLoans, s.netLoans)
    requires StakeInv(tokens, delegations, refunds)
    requires Holds(tokens, REX_ACCOUNT) - slack1 == Holds(s.tokens, REX_ACCOUNT) - slack
    requires Holds(tokens, NAMES_ACCOUNT) >= Holds(s.tokens, NAMES_ACCOUNT)
    ensures Core(s.(delegations := delegations, totals := totals, refunds := refunds, tokens := tokens), slack1)
  {
    hide SumOf, LockUpInv, BalancesInv, PoolInv, LoansInv, ResourcesInv, DelegationsInv, RefundsInv, StakeInv, FundsInv;
  }

  lemma SyncVoteStakeKeeps(s: State, owner: Name)
    requires Inv(s, 0) && SyncVoteStake(s, owner).Ok?
    ensures Inv(SyncVoteStake(s, owner).value, 0)
  {
    hide Inv;
    if owner in s.balances && RexAvailable(s) {
      SyncedStake(s, owner);
      VoteStakeKeeps(s, owner, Value(s.pool.value, s.balances[owner].rex).value);
    }
  }

  lemma SyncedStake(s: State, owner: Name)
    requires Inv(s, 0) && owner in s.balances && RexAvailable(s)
    ensures Value(s.pool.value, s.balances[owner].rex).value >= 0
  {
    hide SumOf;
    BalanceWithinPool(s, owner, 0);
    Arithmetic.FloorShare(s.balances[owner].rex, s.pool.value.lendable, s.pool.value.rex);
  }

  lemma ResourcesShift(s: State, delegations: map<(Name, Name), Delegation>, receiver: Name, net: int, cpu: int)
    requires ResourcesInv(s.totals, s.delegations, s.cpuLoans, s.netLoans)
    requires NetWeight(s.totals, receiver) + net >= 0 && CpuWeight(s.totals, receiver) + cpu >= 0
    requires forall r: Name ::
      SumOf(delegations, NetTo(r)) == SumOf(s.delegations, NetTo(r)) + (if r == receiver then net else 0)
    requires forall r: Name ::
      SumOf(delegations, CpuTo(r)) == SumOf(s.delegations, CpuTo(r)) + (if r == receiver then cpu else 0)
    ensures UpdateTotals(s.totals, receiver, net, cpu).Ok?
    ensures ResourcesInv(UpdateTotals(s.totals, receiver, net, cpu).value, delegations, s.cpuLoans, s.netLoans)
  {
    hide SumOf, UpdateTotals, NetWeight, CpuWeight;
    UpdateTotalsEffect(s.totals, receiver, net, cpu);
  }

  /** Delegating, undelegating and transferring stake: the tables before the vote stake is synced. */
  lemma ChangeBandwidthKeeps(s: State, source: Name, receiver: Name, net: int, cpu: int, transfer: bool)
    requires Inv(s, 0) && ChangeBandwidth(s, source, receiver, net, cpu, transfer).Ok?
    requires source != STAKE_ACCOUNT && source != REX_ACCOUNT && source != NAMES_ACCOUNT
    ensures Inv(ChangeBandwidth(s, source, receiver, net, cpu, transfer).value, 0)
  {
    hide Inv, ChangeDelegation, UpdateTotals, NetAgainstRefund, SyncVoteStake, Seconds, Transfer;
    var from := if transfer then receiver else source;
    var delegations := ChangeDelegation(s.delegations, from, receiver, net, cpu).value;
    var totals := UpdateTotals(s.totals, receiver, net, cpu).value;
    var nets := net + cpu < 0 || (!transfer && from == receiver);
    var (refunds, netLeft, cpuLeft) :=
      if nets then NetAgainstRefund(s.refunds, from, Seconds(s.now), net, cpu) else (s.refunds, net, cpu);
    StakeChangeKeeps(s, source, receiver, net, cpu, transfer, delegations, totals, refunds, netLeft, cpuLeft);
    var tokens := if 0 < netLeft + cpuLeft then Transfer(s.tokens, source, STAKE_ACCOUNT, netLeft + cpuLeft).value
      else s.tokens;
    SyncVoteStakeKeeps(s.(delegations := delegations, totals := totals, refunds := refunds, tokens := tokens), from);
  }

  lemma StakeChangeKeeps(
    s: State, source: Name, receiver: Name, net: int, cpu: int, transfer: bool,
    delegations: map<(Name, Name), Delegation>, totals: map<Name, Totals>, refunds: map<Name, Refund>, netLeft: int,
      cpuLeft: int)
    requires Inv(s, 0) && (net != 0 || cpu != 0) && SameSign(net, cpu)
    requires source != STAKE_ACCOUNT && source != REX_ACCOUNT && source != NAMES_ACCOUNT
    requires var from := if transfer then receiver else source;
      && ChangeDelegation(s.delegations, from, receiver, net, cpu) == Ok(delegations)
      && UpdateTotals(s.totals, receiver, net, cpu) == Ok(totals)
      && (refunds, netLeft, cpuLeft)
         == if net + cpu < 0 || (!transfer && from == receiver) then
             NetAgainstRefund(s.refunds, from, Seconds(s.now), net, cpu)
            else (s.refunds, net, cpu)
    requires 0 < netLeft + cpuLeft ==> Transfer(s.tokens, source, STAKE_ACCOUNT, netLeft + cpuLeft).Ok?
    ensures var tokens := if 0 < netLeft + cpuLeft then
      Transfer(s.tokens, source, STAKE_ACCOUNT, netLeft + cpuLeft).value else s.tokens;
      Inv(s.(delegations := delegations, totals := totals, refunds := refunds, tokens := tokens), 0)
  {
    hide SumOf, ChangeDelegation, UpdateTotals, NetAgainstRefund, LockUpInv, BalancesInv, PoolInv, LoansInv, NamesInv,
         NetWeight, CpuWeight, Seconds, RefundsInv;
    var from := if transfer then receiver else source;
    SameSignMeans(net, cpu);
    DelegationSums(s.delegations, from, receiver, net, cpu);
    NettingConserves(s.refunds, from, Seconds(s.now), net, cpu);
    UpdateTotalsChecks(s.totals, receiver, net, cpu);
    ResourcesShift(s, delegations, receiver, net, cpu);
    var tokens := if 0 < netLeft + cpuLeft then Transfer(s.tokens, source, STAKE_ACCOUNT, netLeft + cpuLeft).value
      else s.tokens;
    if 0 < netLeft + cpuLeft {
      TransferMoves(s.tokens, source, STAKE_ACCOUNT, netLeft + cpuLeft);
    }
    LedgerTablesKeep(s, delegations, totals, refunds, tokens, 0, 0);
  }

  /** A refund that is due is always funded. */
  lemma ClaimRefundKeeps(s: State, owner: Name)
    requires Inv(s, 0) && owner != STAKE_ACCOUNT && owner != REX_ACCOUNT
    ensures ClaimRefund(s, owner).Ok? <==>
      owner in s.refunds && (s.refunds[owner].time + REFUND_DELAY_SECONDS) * MICROS_PER_SECOND <= s.now
    ensures ClaimRefund(s, owner).Ok? ==> Inv(ClaimRefund(s, owner).value, 0)
  {
    hide SumOf, LockUpInv, BalancesInv, PoolInv, LoansInv, NamesInv, ResourcesInv;
    if owner in s.refunds {
      var amount := s.refunds[owner].net + s.refunds[owner].cpu;
      SumBoundsRow(s.refunds, Pending, owner);
      SumNonNegative(s.delegations, Delegated);
      SumErase(s.refunds, Pending, owner);
      assert Transfer(s.tokens, STAKE_ACCOUNT, owner, amount).Ok?;
      TransferMoves(s.tokens, STAKE_ACCOUNT, owner, amount);
      LedgerTablesKeep(s, s.delegations, s.totals, s.refunds - {owner},
        Transfer(s.tokens, STAKE_ACCOUNT, owner, amount).value, 0, 0);
    }
  }

  /** Stake moved to the REX account is always funded; it is on its way into the pool. */
  lemma UnstakeForRexKeeps(s: State, owner: Name, receiver: Name, net: int, cpu: int)
    requires Inv(s, 0) && net >= 0 && cpu >= 0 && net + cpu > 0
    ensures UnstakeForRex(s, owner, receiver, net, cpu).Ok? <==>
      var key := (owner, receiver);
        key in s.delegations && net <= s.delegations[key].net && cpu <= s.delegations[key].cpu
    ensures UnstakeForRex(s, owner, receiver, net, cpu).Ok? ==>
      var s1 := UnstakeForRex(s, owner, receiver, net, cpu).value;
      Core(s1, net + cpu) && s1 == s.(delegations := s1.delegations, totals := s1.totals, tokens := s1.tokens)
  {
    hide SumOf, LockUpInv, BalancesInv, PoolInv, LoansInv, NamesInv, ResourcesInv, UpdateTotals, NetWeight, CpuWeight;
    var key := (owner, receiver);
    if key in s.delegations && net <= s.delegations[key].net && cpu <= s.delegations[key].cpu {
      var delegations := ChangeDelegation(s.delegations, owner, receiver, -net, -cpu).value;
      DelegationSums(s.delegations, owner, receiver, -net, -cpu);
      DelegationWithinTotals(s, owner, receiver);
      ResourcesShift(s, delegations, receiver, -net, -cpu);
      SumBoundsRow(s.delegations, Delegated, key);
      SumNonNegative(s.refunds, Pending);
      assert Transfer(s.tokens, STAKE_ACCOUNT, REX_ACCOUNT, net + cpu).Ok?;
      TransferMoves(s.tokens, STAKE_ACCOUNT, REX_ACCOUNT, net + cpu);
      LedgerTablesKeep(s, delegations, UpdateTotals(s.totals, receiver, -net, -cpu).value, s.refunds,
        Transfer(s.tokens, STAKE_ACCOUNT, REX_ACCOUNT, net + cpu).value, 0, net + cpu);
    }
  }

  lemma DelegationWithinTotals(s: State, from: Name, to: Name)
    requires Core(s, 0) && (from, to) in s.delegations
    ensures NetWeight(s.totals, to) >= s.delegations[(from, to)].net
    ensures CpuWeight(s.totals, to) >= s.delegations[(from, to)].cpu
  {
    hide SumOf, LockUpInv, BalancesInv, PoolInv, NamesInv;
    SumBoundsRow(s.delegations, NetTo(to), (from, to));
    SumBoundsRow(s.delegations, CpuTo(to), (from, to));
    SumNonNegative(s.netLoans, LentTo(to));
    SumNonNegative(s.cpuLoans, LentTo(to));
  }

  // ---------- the name auction ----------

  lemma AuctionTablesKeep(s: State, tokens: map<Name, nat>, bids: map<Name, NameBid>,
      bidRefunds: map<(Name, Name), int>, pool: Option<Pool>)
    requires Core(s, 0) && NamesInv(tokens, bids, bidRefunds, pool)
    requires PoolInv(pool, s.balances, s.cpuLoans, s.netLoans) && Lendable(pool) == Lendable(s.pool)
    requires LoanNum(pool) == LoanNum(s.pool)
    requires Holds(tokens, REX_ACCOUNT) == Holds(s.tokens, REX_ACCOUNT)
    requires Holds(tokens, STAKE_ACCOUNT) == Holds(s.tokens, STAKE_ACCOUNT)
    ensures Core(s.(tokens := tokens, bids := bids, bidRefunds := bidRefunds, pool := pool), 0)
  {
    hide SumOf, LockUpInv, BalancesInv, PoolInv, LoansInv, NamesInv, ResourcesInv, FundsInv;
  }

  lemma BidKeeps(s: State, bidder: Name, newname: Name, bid: int)
    requires Inv(s, 0) && Bid(s, bidder, newname, bid).Ok?
    requires bidder != STAKE_ACCOUNT && bidder != REX_ACCOUNT
    ensures Inv(Bid(s, bidder, newname, bid).value, 0)
  {
    hide SumOf, LockUpInv, BalancesInv, PoolInv, LoansInv, ResourcesInv, StakeInv, RefundsInv, DelegationsInv;
    TransferMoves(s.tokens, bidder, NAMES_ACCOUNT, bid);
    var s1 := Bid(s, bidder, newname, bid).value;
    SumStore(s.bids, OpenBid, newname, NameBid(bidder, bid, s.now));
    if newname in s.bids {
      var current := s.bids[newname];
      var key := (newname, current.bidder);
      SumStore(s.bidRefunds, Whole, key, (if key in s.bidRefunds then s.bidRefunds[key] else 0) + current.highBid);
    }
    AuctionTablesKeep(s, s1.tokens, s1.bids, s1.bidRefunds, s.pool);
  }

  /** A bid refund is always funded. */
  lemma RefundBidKeeps(s: State, bidder: Name, newname: Name)
    requires Inv(s, 0) && bidder != NAMES_ACCOUNT && bidder != STAKE_ACCOUNT && bidder != REX_ACCOUNT
    ensures RefundBid(s, bidder, newname).Ok?
      <==> (newname, bidder) in s.bidRefunds && s.bidRefunds[(newname, bidder)] > 0
    ensures RefundBid(s, bidder, newname).Ok? ==> Inv(RefundBid(s, bidder, newname).value, 0)
  {
    hide SumOf, LockUpInv, BalancesInv, LoansInv, ResourcesInv, StakeInv, RefundsInv, DelegationsInv;
    var key := (newname, bidder);
    if key in s.bidRefunds && s.bidRefunds[key] > 0 {
      SumBoundsRow(s.bidRefunds, Whole, key);
      SumNonNegative(s.bids, OpenBid);
      SumErase(s.bidRefunds, Whole, key);
      assert Transfer(s.tokens, NAMES_ACCOUNT, bidder, s.bidRefunds[key]).Ok?;
      TransferMoves(s.tokens, NAMES_ACCOUNT, bidder, s.bidRefunds[key]);
      AuctionTablesKeep(s, Transfer(s.tokens, NAMES_ACCOUNT, bidder, s.bidRefunds[key]).value, s.bids,
        s.bidRefunds - {key}, s.pool);
    }
  }

  /** At most one auction closes, the one with the highest bid. */
  lemma ClosesHighest(s: State, due: bool) returns (n: Name)
    ensures CloseAuction(s, due) == s
            || (due && n in s.bids && s.bids[n].highBid > 0 && CloseAuction(s, due) == Closed(s, n)
                && forall m | m in s.bids :: OpenBid(s.bids[m]) <= s.bids[n].highBid)
  {
    hide Closed;
    n := 0;
    var open := set m | m in s.bids.Keys && s.bids[m].highBid > 0;
    if due && open != {} {
      n := Least(open, ByHighBid(s.bids));
      forall m | m in s.bids
        ensures OpenBid(s.bids[m]) <= s.bids[n].highBid
      {
        assert s.bids[m].highBid > 0 ==> m in open;
      }
    }
  }

  /** What closing moves: the highest open bid, all of it and nothing else. */
  lemma AuctionMoves(s: State, due: bool)
    ensures var s1 := CloseAuction(s, due); var moved := SumOf(s.bids, OpenBid) - SumOf(s1.bids, OpenBid);
      && s1 == s.(bids := s1.bids, pool := s1.pool)
      && (if RexAvailable(s) then
            s1.pool == Some(s.pool.value.(namebidProceeds := s.pool.value.namebidProceeds + moved))
          else s1.pool == s.pool)
      && (moved == 0 ==> s1 == s)
      && (moved != 0 ==> due && moved > 0 && forall n | n in s.bids :: OpenBid(s.bids[n]) <= moved)
  {
    hide SumOf, CloseAuction;
    var n := ClosesHighest(s, due);
    if CloseAuction(s, due) != s {
      SumStore(s.bids, OpenBid, n, s.bids[n].(highBid := -s.bids[n].highBid));
    }
  }

  /** Closing moves the highest open bid from the open bids to the pool's proceeds; without an open
      pool it leaves the open bids only. */
  lemma CloseAuctionKeeps(s: State, due: bool)
    requires Inv(s, 0)
    ensures Inv(CloseAuction(s, due), 0)
    ensures var s1 := CloseAuction(s, due); var moved := SumOf(s.bids, OpenBid) - SumOf(s1.bids, OpenBid);
      && NamebidProceeds(s1.pool) == NamebidProceeds(s.pool) + (if RexAvailable(s) then moved else 0)
      && (moved == 0 ==> s1 == s)
      && (moved != 0 ==> due && moved > 0 && forall n | n in s.bids :: OpenBid(s.bids[n]) <= moved)
  {
    hide SumOf, LockUpInv, BalancesInv, LoansInv, ResourcesInv, StakeInv, RefundsInv, DelegationsInv, CloseAuction;
    AuctionMoves(s, due);
    var s1 := CloseAuction(s, due);
    AuctionTablesKeep(s, s.tokens, s1.bids, s.bidRefunds, s1.pool);
  }
}
