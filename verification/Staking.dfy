/** Delegated bandwidth, refunds, and the name auction: functions of the tables. */
module Staking {
  import opened Basics
  import opened Tables
  import opened Ledger
  import opened RexPool
  import opened Rex

  // ---------- delegated bandwidth ----------

  function Weights(delegations: map<(Name, Name), Delegation>, from: Name, to: Name): Delegation {
    if (from, to) in delegations then delegations[(from, to)] else Delegation(to, 0, 0)
  }

  function ChangeDelegation(delegations: map<(Name, Name), Delegation>, from: Name, to: Name, net: int, cpu: int)
    : Result<map<(Name, Name), Delegation>>
  {
    var row := Weights(delegations, from, to);
    var row1 := row.(net := row.net + net, cpu := row.cpu + cpu);
    :- Check(0 <= row1.net);
    :- Check(0 <= row1.cpu);
    Ok(if row1.IsEmpty() then delegations - {(from, to)} else delegations[(from, to) := row1])
  }

  /** What is left of a stake change `delta` after `refund` has absorbed it, and the refund then. */
  function Absorb(refund: int, delta: int): (int, int) {
    if refund - delta < 0 then (0, delta - refund) else (refund - delta, 0)
  }

  /** Nets a stake change against the pending refund of `from`; returns the refunds and what
      still has to be transferred for NET and CPU. */
  function NetAgainstRefund(refunds: map<Name, Refund>, from: Name, second: nat, net: int, cpu: int)
    : (map<Name, Refund>, int, int)
  {
    if from in refunds then
      var r := refunds[from];
      var (netRefund, netLeft) := Absorb(r.net, net);
      var (cpuRefund, cpuLeft) := Absorb(r.cpu, cpu);
      var r1 := Refund(if net < 0 || cpu < 0 then second else r.time, netRefund, cpuRefund);
      (if r1.IsEmpty() then refunds - {from} else refunds[from := r1], netLeft, cpuLeft)
    else if net < 0 || cpu < 0 then
      (refunds[from := Refund(second, Max(0, -net), Max(0, -cpu))], Max(0, net), Max(0, cpu))
    else (refunds, net, cpu)
  }

  predicate SameSign(net: int, cpu: int) {
    Abs(net + cpu) >= Max(Abs(net), Abs(cpu))
  }

  /** Brings the vote stake of `owner` up to the value of its REX. */
  function SyncVoteStake(s: State, owner: Name): Result<State> {
    if owner in s.balances && RexAvailable(s) then
      var stake :- Value(s.pool.value, s.balances[owner].rex);
      Ok(PutBalance(s, owner, s.balances[owner].(voteStake := stake)))
    else Ok(s)
  }

  /** The refunds after a stake change, and the tokens once what no refund covered is collected.
      Nothing is refunded or collected for the stake account itself. */
  function SettleStake(s: State, source: Name, from: Name, receiver: Name, net: int, cpu: int, transfer: bool)
    : Result<(map<Name, Refund>, map<Name, nat>)>
  {
    var nets := source != STAKE_ACCOUNT && (net + cpu < 0 || (!transfer && from == receiver));
    var (refunds, netLeft, cpuLeft) :=
      if nets then NetAgainstRefund(s.refunds, from, Seconds(s.now), net, cpu) else (s.refunds, net, cpu);
    var owed := if source == STAKE_ACCOUNT then 0 else netLeft + cpuLeft;
    var tokens :- (if 0 < owed then Transfer(s.tokens, source, STAKE_ACCOUNT, owed) else Ok(s.tokens));
    Ok((refunds, tokens))
  }

  function ChangeBandwidth(s: State, source: Name, receiver: Name, net: int, cpu: int, transfer: bool): Result<State> {
    if net == 0 && cpu == 0 then Abort else
    :- Check(SameSign(net, cpu));
    var from := if transfer then receiver else source;
    var delegations :- ChangeDelegation(s.delegations, from, receiver, net, cpu);
    var totals :- UpdateTotals(s.totals, receiver, net, cpu);
    var s1 := s.(delegations := delegations, totals := totals);
    var (refunds, tokens) :- SettleStake(s1, source, from, receiver, net, cpu, transfer);
    SyncVoteStake(s1.(refunds := refunds, tokens := tokens), from)
  }

  function ClaimRefund(s: State, owner: Name): Result<State> {
    if owner !in s.refunds then Abort else
    var r := s.refunds[owner];
    :- Check((r.time + REFUND_DELAY_SECONDS) * MICROS_PER_SECOND <= s.now);
    var s1 :- SendTokens(s, STAKE_ACCOUNT, owner, r.net + r.cpu);
    Ok(s1.(refunds := s1.refunds - {owner}))
  }

  /** Takes stake out of a delegation and moves its tokens to the REX account. */
  function UnstakeForRex(s: State, owner: Name, receiver: Name, net: int, cpu: int): Result<State> {
    if (owner, receiver) !in s.delegations then Abort else
    :- Check(net <= s.delegations[(owner, receiver)].net);
    :- Check(cpu <= s.delegations[(owner, receiver)].cpu);
    var delegations :- ChangeDelegation(s.delegations, owner, receiver, -net, -cpu);
    var totals :- UpdateTotals(s.totals, receiver, -net, -cpu);
    SendTokens(s.(delegations := delegations, totals := totals), STAKE_ACCOUNT, REX_ACCOUNT, net + cpu)
  }

  // ---------- the name auction ----------

  function Bid(s: State, bidder: Name, newname: Name, bid: int): Result<State> {
    if bid <= 0 then Abort else
    var s1 :- SendTokens(s, bidder, NAMES_ACCOUNT, bid);
    if newname !in s.bids then
      Ok(s1.(bids := s1.bids[newname := NameBid(bidder, bid, s.now)]))
    else
      var current := s.bids[newname];
      :- Check(current.highBid > 0);
      :- Check(bid - current.highBid > current.highBid / 10);
      :- Check(current.bidder != bidder);
      var key := (newname, current.bidder);
      var owed := if key in s1.bidRefunds then s1.bidRefunds[key] else 0;
      Ok(s1.(bidRefunds := s1.bidRefunds[key := owed + current.highBid],
             bids := s1.bids[newname := NameBid(bidder, bid, s.now)]))
  }

  function RefundBid(s: State, bidder: Name, newname: Name): Result<State> {
    var key := (newname, bidder);
    :- Check(key in s.bidRefunds);
    var s1 :- SendTokens(s, NAMES_ACCOUNT, bidder, s.bidRefunds[key]);
    Ok(s1.(bidRefunds := s1.bidRefunds - {key}))
  }

  function ByHighBid(bids: map<Name, NameBid>): Name -> int {
    (n: Name) => if n in bids then -bids[n].highBid else 0
  }

  /** The auction of `n` closed: its bid is negated, and goes to an open pool. */
  function Closed(s: State, n: Name): State
    requires n in s.bids
  {
    var bid := s.bids[n];
    var pool := if RexAvailable(s)
                then Some(s.pool.value.(namebidProceeds := s.pool.value.namebidProceeds + bid.highBid)) else s.pool;
    s.(pool := pool, bids := s.bids[n := bid.(highBid := -bid.highBid)])
  }

  /** Closes the auction with the highest open bid, once a day has passed since that bid. `due`
      tells whether a day has passed since the last auction closed, and fourteen since activation. */
  function CloseAuction(s: State, due: bool): State {
    var open := set n | n in s.bids.Keys && s.bids[n].highBid > 0;
    if !due || open == {} then s
    else
      var n := Least(open, ByHighBid(s.bids));
      if s.now - s.bids[n].lastBid > DAY_MICROS then Closed(s, n) else s
  }
}
