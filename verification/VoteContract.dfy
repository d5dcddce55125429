/** The contract's own form of voting and producer pay: an object whose actions update its tables
    in place. Every method is proved to do what the function of the same step says. */
module VoteContract {
  import opened Basics
  import opened Tables
  import opened Ledger
  import opened Voting
  import opened VotingInvariant
  import opened VotingProofs
  import opened ProducerPay
  import opened ProxyGraph
  import opened VotePayRuns

  class VotingSystem {
    const weigh: (int, nat) -> nat
    var now: nat
    var voters: map<Name, Voter>
    var producers: map<Name, Producer>
    var totalActivated: int
    var totalWeight: int
    var totalShare: int
    var shareRate: int
    var lastVpay: nat
    var tokens: map<Name, nat>
    var supply: int
    var maxSupply: int
    var perBlock: int
    var perVote: int
    var totalUnpaid: int
    var lastFill: nat
    var revision: nat

    function Votes(): VoteState
      reads this
    {
      VoteState(now, weigh, voters, producers, totalActivated, totalWeight, totalShare, shareRate, lastVpay)
    }

    function Tables(): PayState
      reads this
    {
      PayState(Votes(), tokens, supply, maxSupply, perBlock, perVote, totalUnpaid, lastFill, revision)
    }

    /** The chain hands the contract the tables it stored. */
    constructor (s: PayState)
      ensures Tables() == s
    {
      var v := s.votes;
      weigh, now, voters, producers, totalActivated := v.weigh, v.now, v.voters, v.producers, v.totalActivated;
      totalWeight, totalShare, shareRate, lastVpay := v.totalWeight, v.totalShare, v.shareRate, v.lastVpay;
      tokens, supply, maxSupply, perBlock, perVote := s.tokens, s.supply, s.maxSupply, s.perBlock, s.perVote;
      totalUnpaid, lastFill, revision := s.totalUnpaid, s.lastFill, s.revision;
    }

    /** The host discards what an aborted action did. */
    method Rollback(s: PayState)
      requires s.votes.weigh == weigh
      modifies this
      ensures Tables() == s
    {
      RestoreVotes(s.votes);
      tokens, supply, maxSupply, perBlock, perVote := s.tokens, s.supply, s.maxSupply, s.perBlock, s.perVote;
      totalUnpaid, lastFill, revision := s.totalUnpaid, s.lastFill, s.revision;
    }

    method RestoreVotes(v: VoteState)
      requires v.weigh == weigh
      modifies this`now, this`voters, this`producers, this`totalActivated, this`totalWeight, this`totalShare,
               this`shareRate, this`lastVpay
      ensures Votes() == v
    {
      now, voters, producers, totalActivated := v.now, v.voters, v.producers, v.totalActivated;
      totalWeight, totalShare, shareRate, lastVpay := v.totalWeight, v.totalShare, v.shareRate, v.lastVpay;
    }

    // ---------- vote-pay shares ----------

    method UpdateTotalVotepayShare(sharesDelta: int, rateDelta: int)
      modifies this`totalShare, this`shareRate, this`lastVpay
      ensures Votes() == UpdateTotalShare(old(Votes()), sharesDelta, rateDelta)
    {
      var delta := 0;
      if now > lastVpay {
        delta := shareRate * (now - lastVpay);
      }
      delta := delta + sharesDelta;
      if delta < 0 && totalShare < -delta {
        totalShare := 0;
      } else {
        totalShare := totalShare + delta;
      }
      if rateDelta < 0 && shareRate < -rateDelta {
        shareRate := 0;
      } else {
        shareRate := shareRate + rateDelta;
      }
      lastVpay := now;
    }

    method UpdateProducerVotepayShare(name: Name, rate: int, reset: bool) returns (share: int)
      requires name in producers
      modifies this`producers
      ensures producers == old(producers)[name := UpdateShare(old(producers[name]), now, rate, reset).0]
      ensures share == UpdateShare(old(producers[name]), now, rate, reset).1
    {
      var p := producers[name];
      share := p.share;
      if rate > 0 && now > p.lastUpdate {
        share := share + rate * (now - p.lastUpdate);
      }
      producers := producers[name := p.(share := if reset then 0 else share, lastUpdate := now)];
    }

    /** The loop body that voting and propagation share. */
    method ChangeProducerVotes(name: Name, votes: int, d: int, tab: Tab) returns (tab1: Tab)
      requires name in producers
      modifies this`producers, this`totalWeight
      ensures (Votes(), tab1) == ChangeVotes(old(Votes()), name, votes, d, tab)
    {
      var initVotes := producers[name].votes;
      producers := producers[name := producers[name].(votes := votes)];
      totalWeight := totalWeight + d;
      var row := producers[name];
      var crossed := row.lastClaim + THREE_DAYS <= now;
      var updatedAfter := row.lastClaim + THREE_DAYS <= row.lastUpdate;
      var share := UpdateProducerVotepayShare(name, if updatedAfter then 0 else initVotes, crossed && !updatedAfter);
      assert producers == old(producers)[name := producers[name]];
      tab1 := tab;
      if !crossed {
        tab1 := tab1.(rate := tab1.rate + d);
      } else if !updatedAfter {
        tab1 := Tab(tab1.rate - initVotes, tab1.inactive + share);
      }
    }

    // ---------- propagation ----------

    method WeightNow(voter: Voter) returns (weight: int)
      ensures weight == WeightOf(Votes(), voter)
    {
      weight := weigh(voter.staked, now);
      if voter.isProxy {
        weight := weight + voter.proxied;
      }
    }

    method AddToProxied(proxy: Name, d: int)
      requires proxy in voters
      modifies this`voters
      ensures Votes() == AddProxied(old(Votes()), proxy, d)
    {
      voters := voters[proxy := voters[proxy].(proxied := voters[proxy].proxied + d)];
    }

    /** The producer loop of a propagation. */
    method SpreadToProducers(names: seq<Name>, d: int) returns (ok: bool, tab: Tab)
      modifies this`producers, this`totalWeight
      ensures ok == Spread(old(Votes()), names, d, Tab(0, 0)).Ok?
      ensures ok ==> (Votes(), tab) == Spread(old(Votes()), names, d, Tab(0, 0)).value
    {
      hide ChangeVotes;
      tab := Tab(0, 0);
      for i := 0 to |names|
        invariant Spread(old(Votes()), names[..i], d, Tab(0, 0)) == Ok((Votes(), tab))
      {
        assert names[..i + 1][..i] == names[..i];
        if names[i] !in producers {
          SpreadAborts(old(Votes()), names, i + 1, d);
          return false, tab;
        }
        tab := ChangeProducerVotes(names[i], producers[names[i]].votes + d, d, tab);
      }
      assert names[..|names|] == names;
      return true, tab;
    }

    /** `propagate_weight_change`: the recursion climbs a chain of proxies, and ends. */
    method PropagateWeightChange(v: Name) returns (ok: bool)
      requires Acyclic(Edges(voters)) && v in voters
      modifies this`voters, this`producers, this`totalWeight, this`totalShare, this`shareRate, this`lastVpay
      ensures ok == Propagate(old(Votes()), v).Ok?
      ensures ok ==> Votes() == Propagate(old(Votes()), v).value
      decreases Height(Edges(voters), v)
    {
      hide Spread, Acyclic, UpdateTotalShare, Edges, AddProxied, Height, WeightOf;
      var voter := voters[v];
      if voter.proxy != NO_NAME && voter.isProxy {
        return false;
      }
      var weight := WeightNow(voter);
      var d := weight - voter.lastWeight;
      if d > 1 || d < -1 {
        if voter.proxy != NO_NAME {
          if voter.proxy !in voters {
            return false;
          }
          EdgeTo(voters, v);
          HeightFalls(Edges(voters), v);
          AddToProxied(voter.proxy, d);
          ok := PropagateWeightChange(voter.proxy);
          if !ok {
            return;
          }
        } else {
          var tab;
          ok, tab := SpreadToProducers(voter.producers, d);
          if !ok {
            return;
          }
          UpdateTotalVotepayShare(-tab.inactive, tab.rate);
        }
      }
      voters := voters[v := voters[v].(lastWeight := weight)];
      return true;
    }

    // ---------- voting ----------

    method Withdraw(v: Name) returns (ok: bool)
      requires Acyclic(Edges(voters)) && v in voters
      modifies this`voters, this`producers, this`totalWeight, this`totalShare, this`shareRate, this`lastVpay
      ensures ok == WithdrawWeight(old(Votes()), v).Ok?
      ensures ok ==> Votes() == WithdrawWeight(old(Votes()), v).value
    {
      hide Acyclic, Propagate;
      ok := true;
      var voter := voters[v];
      if voter.lastWeight > 0 && voter.proxy != NO_NAME {
        if voter.proxy !in voters {
          return false;
        }
        AddToProxied(voter.proxy, -voter.lastWeight);
        ok := PropagateWeightChange(voter.proxy);
      }
    }

    method Grant(proxy: Name, weight: int, voting: bool) returns (ok: bool)
      requires Acyclic(Edges(voters))
      modifies this`voters, this`producers, this`totalWeight, this`totalShare, this`shareRate, this`lastVpay
      ensures ok == GrantWeight(old(Votes()), proxy, weight, voting).Ok?
      ensures ok ==> Votes() == GrantWeight(old(Votes()), proxy, weight, voting).value
    {
      hide Acyclic, Propagate;
      ok := true;
      if proxy != NO_NAME {
        if proxy !in voters || (voting && !voters[proxy].isProxy) {
          return false;
        }
        if weight >= 0 {
          AddToProxied(proxy, weight);
          ok := PropagateWeightChange(proxy);
        }
      }
    }

    /** Adds `amount` to the entry of each listed producer. */
    static method CollectDeltas(deltas: map<Name, Delta>, names: seq<Name>, amount: int, isNew: bool)
      returns (out: map<Name, Delta>)
      ensures out == AddDeltas(deltas, names, amount, isNew)
    {
      out := deltas;
      for i := 0 to |names|
        invariant out == AddDeltas(deltas, names[..i], amount, isNew)
      {
        assert names[..i + 1][..i] == names[..i];
        var name := names[i];
        out := out[name := Delta((if name in out then out[name].amount else 0) + amount, isNew)];
      }
      assert names[..|names|] == names;
    }

    /** The producer loop of a vote, in ascending order of names. */
    method ApplyProducerDeltas(deltas: map<Name, Delta>, voting: bool) returns (ok: bool, tab: Tab)
      modifies this`producers, this`totalWeight
      ensures ok == ApplyDeltas(old(Votes()), deltas, voting, Tab(0, 0)).Ok?
      ensures ok ==> (Votes(), tab) == ApplyDeltas(old(Votes()), deltas, voting, Tab(0, 0)).value
    {
      hide ChangeVotes;
      tab := Tab(0, 0);
      var rest := deltas;
      while rest.Keys != {}
        invariant ApplyDeltas(Votes(), rest, voting, tab) == ApplyDeltas(old(Votes()), deltas, voting, Tab(0, 0))
        decreases |rest.Keys|
      {
        var name := Least(rest.Keys, n => 0);
        var delta := rest[name];
        assert (rest - {name}).Keys == rest.Keys - {name};
        rest := rest - {name};
        if name in producers {
          if voting && !producers[name].isActive && delta.isNew {
            return false, tab;
          }
          var votes := producers[name].votes + delta.amount;
          if votes < 0 {
            votes := 0;
          }
          tab := ChangeProducerVotes(name, votes, delta.amount, tab);
        } else if delta.isNew {
          return false, tab;
        }
      }
      return true, tab;
    }

    method Activate(v: Name)
      requires v in voters
      modifies this`totalActivated
      ensures Votes() == Activated(old(Votes()), v)
    {
      if voters[v].lastWeight <= 0 {
        totalActivated := totalActivated + voters[v].staked;
      }
    }

    /** The producer changes that replace the voter's old list by the new one. */
    static method CollectVoteDeltas(voter: Voter, proxy: Name, names: seq<Name>, weight: int)
      returns (deltas: map<Name, Delta>)
      ensures deltas == Deltas(voter, proxy, names, weight)
    {
      hide AddDeltas;
      deltas := map[];
      if voter.lastWeight > 0 && voter.proxy == NO_NAME {
        deltas := CollectDeltas(deltas, voter.producers, -voter.lastWeight, false);
      }
      if proxy == NO_NAME && weight >= 0 {
        deltas := CollectDeltas(deltas, names, weight, true);
      }
    }

    static method IsAscending(names: seq<Name>) returns (ok: bool)
      ensures ok == Ascending(names)
    {
      var i := 1;
      while i < |names|
        invariant 1 <= i
        invariant forall j | 1 <= j < i && j < |names| :: names[j - 1] < names[j]
      {
        if names[i - 1] >= names[i] {
          return false;
        }
        i := i + 1;
      }
      return true;
    }

    method CheckVote(v: Name, proxy: Name, names: seq<Name>) returns (ok: bool)
      ensures ok == VoteAllowed(Votes(), v, proxy, names)
    {
      hide Ascending;
      if proxy != NO_NAME {
        if |names| != 0 || v == proxy {
          return false;
        }
      } else {
        var sorted := IsAscending(names);
        if |names| > 30 || !sorted {
          return false;
        }
      }
      return v in voters && (proxy == NO_NAME || !voters[v].isProxy);
    }

    /** `update_votes`. */
    method CastVotes(v: Name, proxy: Name, names: seq<Name>, voting: bool) returns (ok: bool)
      requires Acyclic(Edges(voters))
      modifies this`voters, this`producers, this`totalActivated, this`totalWeight, this`totalShare, this`shareRate,
               this`lastVpay
      ensures ok == UpdateVotes(old(Votes()), v, proxy, names, voting).Ok?
      ensures ok ==> Votes() == UpdateVotes(old(Votes()), v, proxy, names, voting).value
    {
      hide Acyclic, Edges, Recast, Ascending;
      ok := CheckVote(v, proxy, names);
      if ok {
        ok := MoveVotes(v, proxy, names, voting);
      }
    }

    /** The changes a vote makes, once it is allowed. */
    method MoveVotes(v: Name, proxy: Name, names: seq<Name>, voting: bool) returns (ok: bool)
      requires Acyclic(Edges(voters)) && v in voters
      modifies this`voters, this`producers, this`totalActivated, this`totalWeight, this`totalShare, this`shareRate,
               this`lastVpay
      ensures ok == Recast(old(Votes()), v, proxy, names, voting).Ok?
      ensures ok ==> Votes() == Recast(old(Votes()), v, proxy, names, voting).value
    {
      hide Acyclic, Edges, WithdrawWeight, GrantWeight, ApplyDeltas, Deltas, UpdateTotalShare, WeightOf;
      var voter := voters[v];
      var weight := WeightNow(voter);
      Activate(v);
      ok := Withdraw(v);
      if !ok {
        return;
      }
      ok := Grant(proxy, weight, voting);
      if !ok {
        return;
      }
      var deltas := CollectVoteDeltas(voter, proxy, names, weight);
      var tab;
      ok, tab := ApplyProducerDeltas(deltas, voting);
      if !ok {
        return;
      }
      UpdateTotalVotepayShare(-tab.inactive, tab.rate);
      voters := voters[v := voters[v].(lastWeight := weight, producers := names, proxy := proxy)];
    }

    // ---------- registrations and stake ----------

    method DoRegProxy(v: Name, isProxy: bool) returns (ok: bool)
      requires Acyclic(Edges(voters))
      modifies this`voters, this`producers, this`totalWeight, this`totalShare, this`shareRate, this`lastVpay
      ensures ok == RegisterProxy(old(Votes()), v, isProxy).Ok?
      ensures ok ==> Votes() == RegisterProxy(old(Votes()), v, isProxy).value
    {
      hide Acyclic, Propagate;
      ok := true;
      if v in voters {
        if isProxy == voters[v].isProxy || (isProxy && voters[v].proxy != NO_NAME) {
          return false;
        }
        voters := voters[v := voters[v].(isProxy := isProxy)];
        assert Edges(voters) == Edges(old(voters));
        ok := PropagateWeightChange(v);
      } else {
        voters := voters[v := Voter(v, NO_NAME, [], 0, 0, 0, isProxy)];
      }
    }

    /** `update_voting_power`. */
    method DoChangeStake(v: Name, delta: int) returns (ok: bool)
      requires Acyclic(Edges(voters))
      modifies this`voters, this`producers, this`totalActivated, this`totalWeight, this`totalShare, this`shareRate,
               this`lastVpay
      ensures ok == ChangeStake(old(Votes()), v, delta).Ok?
      ensures ok ==> Votes() == ChangeStake(old(Votes()), v, delta).value
    {
      hide Acyclic, UpdateVotes;
      if v !in voters {
        voters := voters[v := Voter(v, NO_NAME, [], delta, 0, 0, false)];
      } else {
        voters := voters[v := voters[v].(staked := voters[v].staked + delta)];
      }
      if voters[v].staked < 0 {
        return false;
      }
      ok := true;
      assert Edges(voters) == Edges(old(voters));
      if |voters[v].producers| > 0 || voters[v].proxy != NO_NAME {
        ok := CastVotes(v, voters[v].proxy, voters[v].producers, false);
      }
    }

    method DoSyncStake(v: Name, delta: int)
      modifies this`voters
      ensures Votes() == SyncStake(old(Votes()), v, delta)
    {
      if v in voters {
        voters := voters[v := voters[v].(staked := voters[v].staked + delta)];
      }
    }

    method DoRegProducer(name: Name)
      modifies this`producers
      ensures Votes() == RegisterProducer(old(Votes()), name)
    {
      if name in producers {
        var p := producers[name].(isActive := true);
        if p.lastClaim == 0 {
          p := p.(lastClaim := now);
        }
        producers := producers[name := p];
      } else {
        producers := producers[name := Producer(0, true, 0, now, 0, now)];
      }
    }

    method DoUnregProducer(name: Name) returns (ok: bool)
      modifies this`producers
      ensures ok == UnregisterProducer(old(Votes()), name).Ok?
      ensures ok ==> Votes() == UnregisterProducer(old(Votes()), name).value
    {
      if name !in producers {
        return false;
      }
      producers := producers[name := producers[name].(isActive := false)];
      return true;
    }

    // ---------- pay ----------

    method InlineTransfer(from: Name, to: Name, quantity: int) returns (ok: bool)
      modifies this`tokens
      ensures ok == Transfer(old(tokens), from, to, quantity).Ok?
      ensures ok ==> tokens == Transfer(old(tokens), from, to, quantity).value
    {
      if from == to || quantity <= 0 || from !in tokens || tokens[from] < quantity {
        return false;
      }
      tokens := tokens[from := tokens[from] - quantity];
      tokens := tokens[to := (if to in tokens then tokens[to] else 0) + quantity];
      return true;
    }

    method InlineIssue(quantity: int) returns (ok: bool)
      modifies this`tokens, this`supply
      ensures ok == (0 < quantity <= maxSupply - old(supply))
      ensures ok ==> tokens == Issue(old(tokens), quantity) && supply == old(supply) + quantity
    {
      if quantity <= 0 || quantity > maxSupply - supply {
        return false;
      }
      supply := supply + quantity;
      tokens := tokens[SYSTEM_ACCOUNT := (if SYSTEM_ACCOUNT in tokens then tokens[SYSTEM_ACCOUNT] else 0) + quantity];
      return true;
    }

    /** The bucket-filling part of `claimrewards`. */
    method Fill() returns (ok: bool)
      modifies this`tokens, this`supply, this`perVote, this`perBlock, this`lastFill
      ensures ok == FillBuckets(old(Tables())).Ok?
      ensures ok ==> Tables() == FillBuckets(old(Tables())).value
    {
      hide NewTokens, Issue, Transfer;
      ok := true;
      if now > lastFill && lastFill > 0 {
        var newTokens := NewTokens(Tables());
        var toProducers := newTokens / 5;
        var toSavings := newTokens - toProducers;
        var toPerBlock := toProducers / 4;
        var toPerVote := toProducers - toPerBlock;
        ok := InlineIssue(newTokens);
        if ok {
          ok := InlineTransfer(SYSTEM_ACCOUNT, SAVING_ACCOUNT, toSavings);
        }
        if ok {
          ok := InlineTransfer(SYSTEM_ACCOUNT, BPAY_ACCOUNT, toPerBlock);
        }
        if ok {
          ok := InlineTransfer(SYSTEM_ACCOUNT, VPAY_ACCOUNT, toPerVote);
        }
        if ok {
          perVote := perVote + toPerVote;
          perBlock := perBlock + toPerBlock;
          lastFill := now;
        }
      }
    }

    /** Brings the claimant's share up to date and, after the first revision, the global one. */
    method AccrueClaim(owner: Name, rate: int) returns (share: int)
      requires owner in producers
      modifies this`producers, this`totalShare, this`shareRate, this`lastVpay
      ensures Claiming(old(Votes()), Votes(), revision > 0, owner, rate, share) && owner in producers
    {
      hide UpdateTotalShare, UpdateShare;
      share := UpdateProducerVotepayShare(owner, rate, true);
      TotalsCommute(old(Votes()), Votes(), 0, 0);
      if revision > 0 {
        UpdateTotalVotepayShare(0, 0);
      }
    }

    /** Takes the paid share out of the global one, and starts the claimant's row over. */
    method CloseClaim(owner: Name, share: int, rate: int)
      requires owner in producers
      modifies this`producers, this`totalShare, this`shareRate, this`lastVpay
      ensures Votes() == UpdateTotalShare(old(Votes()), -share, rate).(producers :=
        old(producers)[owner := old(producers[owner]).(lastClaim := now, unpaidBlocks := 0)])
    {
      hide UpdateTotalShare;
      UpdateTotalVotepayShare(-share, rate);
      producers := producers[owner := producers[owner].(lastClaim := now, unpaidBlocks := 0)];
    }

    method SendPay(owner: Name, blockPay: int, votePay: int) returns (ok: bool)
      modifies this`tokens
      ensures var t1 := PayIf(old(tokens), BPAY_ACCOUNT, owner, blockPay);
        && ok == (t1.Ok? && PayIf(t1.value, VPAY_ACCOUNT, owner, votePay).Ok?)
        && (ok ==> tokens == PayIf(t1.value, VPAY_ACCOUNT, owner, votePay).value)
    {
      hide Transfer;
      ok := true;
      if blockPay > 0 {
        ok := InlineTransfer(BPAY_ACCOUNT, owner, blockPay);
      }
      if ok && votePay > 0 {
        ok := InlineTransfer(VPAY_ACCOUNT, owner, votePay);
      }
    }

    /** The part of a claim that concerns votes. */
    method DoClaimVotes(owner: Name) returns (votePay: int)
      requires owner in producers
      modifies this`producers, this`totalShare, this`shareRate, this`lastVpay
      ensures (Votes(), votePay) == ClaimVotes(old(Tables()), owner)
    {
      hide UpdateTotalShare, UpdateShare, VotePayment, ClaimVotes, Claiming;
      var p := producers[owner];
      var crossed := p.lastClaim + THREE_DAYS <= now;
      var updatedAfter := p.lastClaim + THREE_DAYS <= p.lastUpdate;
      var share := AccrueClaim(owner, if updatedAfter then 0 else p.votes);
      votePay := VotePayment(Tables(), p, share, crossed);
      if votePay < MIN_PERVOTE_DAILY_PAY {
        votePay := 0;
      }
      ClaimByStages(old(Tables()), owner, Votes(), share, votePay);
      CloseClaim(owner, share, if updatedAfter then p.votes else 0);
    }

    /** The pay-out part of `claimrewards`. */
    method DoPayOut(owner: Name) returns (ok: bool)
      requires owner in producers
      modifies this`tokens, this`perVote, this`perBlock, this`totalUnpaid, this`producers, this`totalShare,
               this`shareRate, this`lastVpay
      ensures ok == PayOut(old(Tables()), owner).Ok?
      ensures ok ==> Tables() == PayOut(old(Tables()), owner).value
    {
      hide ClaimVotes, PayIf, BlockPay;
      var blockPay := BlockPay(Tables(), producers[owner]);
      var unpaid := producers[owner].unpaidBlocks;
      var votePay := DoClaimVotes(owner);
      perVote := perVote - votePay;
      perBlock := perBlock - blockPay;
      totalUnpaid := totalUnpaid - unpaid;
      ok := SendPay(owner, blockPay, votePay);
    }

    method DoClaim(owner: Name) returns (ok: bool)
      modifies this
      ensures ok == ClaimRewards(old(Tables()), owner).Ok?
      ensures ok ==> Tables() == ClaimRewards(old(Tables()), owner).value
    {
      hide PayOut;
      if owner !in producers || !producers[owner].isActive || totalActivated < MIN_ACTIVATED_STAKE
         || now - producers[owner].lastClaim <= DAY_MICROS {
        return false;
      }
      ok := Fill();
      if ok {
        ok := DoPayOut(owner);
      }
    }

    /** The counting part of `onblock`. */
    method DoOnBlock(producer: Name)
      modifies this`lastFill, this`totalUnpaid, this`producers
      ensures Tables() == OnBlock(old(Tables()), producer)
    {
      if totalActivated < MIN_ACTIVATED_STAKE {
        return;
      }
      if lastFill == 0 {
        lastFill := now;
      }
      if producer in producers {
        totalUnpaid := totalUnpaid + 1;
        producers := producers[producer := producers[producer].(unpaidBlocks := producers[producer].unpaidBlocks + 1)];
      }
    }

    // ---------- dispatch ----------

    predicate OnVoters(a: Action) {
      a.Vote? || a.RegProxy? || a.Stake? || a.SyncRexStake?
    }

    /** Actions on voters. */
    method DispatchVoters(a: Action) returns (ok: bool)
      requires OnVoters(a) && Acyclic(Edges(voters))
      modifies this
      ensures ok == Exec(old(Tables()), a).Ok?
      ensures ok ==> Tables() == Exec(old(Tables()), a).value
    {
      hide Acyclic, Edges, UpdateVotes, RegisterProxy, ChangeStake, SyncStake;
      ok := true;
      match a
      case Vote(voter, proxy, names) => ok := CastVotes(voter, proxy, names, true);
      case RegProxy(voter, isProxy) => ok := DoRegProxy(voter, isProxy);
      case Stake(voter, delta) => ok := DoChangeStake(voter, delta);
      case SyncRexStake(voter, delta) => DoSyncStake(voter, delta);
    }

    /** Actions on producers and their pay, and the world outside. */
    method DispatchProducers(a: Action) returns (ok: bool)
      requires !OnVoters(a) && Acyclic(Edges(voters))
      modifies this
      ensures ok == Exec(old(Tables()), a).Ok?
      ensures ok ==> Tables() == Exec(old(Tables()), a).value
    {
      hide Acyclic, Edges, RegisterProducer, UnregisterProducer, OnBlock, ClaimRewards, Transfer;
      ok := true;
      match a
      case Tick(micros) => now := now + micros;
      case RegProducer(producer) => DoRegProducer(producer);
      case UnregProducer(producer) => ok := DoUnregProducer(producer);
      case Block(producer) => DoOnBlock(producer);
      case Claim(producer) => ok := DoClaim(producer);
      case SetRevision(r) =>
        if revision >= 255 || r != revision + 1 || r > 1 {
          return false;
        }
        revision := r;
      case Outside(from, to, quantity) => ok := InlineTransfer(from, to, quantity);
    }

    method Dispatch(a: Action) returns (ok: bool)
      requires Acyclic(Edges(voters))
      modifies this
      ensures ok == Exec(old(Tables()), a).Ok?
      ensures ok ==> Tables() == Exec(old(Tables()), a).value
    {
      hide Acyclic, Edges, Exec;
      if OnVoters(a) {
        ok := DispatchVoters(a);
      } else {
        ok := DispatchProducers(a);
      }
    }

    /** One transaction: the action, or nothing at all. The proxy graph stays sound whatever the
        action, and the books through every admissible one; the vote-pay accounting stays exact when
        no counted votes are driven below zero, and the tallies when no change is dropped. */
    method Push(a: Action) returns (ok: bool)
      requires Proxies(voters) && Acyclic(Edges(voters))
      modifies this
      ensures Tables() == ProxyGraph.Step(old(Tables()), a)
      ensures Proxies(voters)
      ensures Books(old(Tables())) && Admissible(a) ==> Books(Tables())
      ensures VotePay(old(Votes()), Tab(0, 0)) && old(now) > 0 && SustainedAction(old(Votes()), a) ==>
        VotePay(Votes(), Tab(0, 0)) && now > 0
      ensures PayInv(old(Tables())) && Admissible(a) && CleanAction(old(Votes()), a) ==> PayInv(Tables())
    {
      hide Exec, PayInv, Books, VotePay, Proxies, Acyclic, Edges, CleanAction, SustainedAction, Admissible;
      var saved := Tables();
      ok := Dispatch(a);
      if !ok {
        Rollback(saved);
      }
      if ok {
        StepKeeps(saved, a);
      }
    }
  }

  /** A producer that is missing aborts the rest of the loop. */
  lemma {:induction false} SpreadAborts(s: VoteState, names: seq<Name>, i: nat, d: int)
    requires i <= |names| && Spread(s, names[..i], d, Tab(0, 0)).Abort?
    ensures Spread(s, names, d, Tab(0, 0)).Abort?
    decreases |names| - i
  {
    if i == |names| {
      assert names[..i] == names;
    } else {
      assert names[..i + 1][..i] == names[..i];
      SpreadAborts(s, names, i + 1, d);
    }
  }

  /** The state between the two halves of a claim. */
  ghost predicate Claiming(v: VoteState, a: VoteState, revised: bool, owner: Name, rate: int, share: int)
    requires owner in v.producers
  {
    var (p1, due) := UpdateShare(v.producers[owner], v.now, rate, true);
    && share == due
    && a == (if revised then UpdateTotalShare(v, 0, 0) else v).(producers := v.producers[owner := p1])
  }

  /** The pay for votes does not depend on the producer rows. */
  lemma SamePayment(s: PayState, a: VoteState, p: Producer, share: int, crossed: bool)
    requires a == s.votes.(producers := a.producers)
    ensures VotePayment(s.(votes := a), p, share, crossed) == VotePayment(s, p, share, crossed)
  {
  }

  /** A claim, put together from its stages. */
  lemma ClaimByStages(s: PayState, owner: Name, a: VoteState, share: int, votePay: int)
    requires owner in s.votes.producers
    requires var p := s.votes.producers[owner];
      var updatedAfter := p.lastClaim + THREE_DAYS <= p.lastUpdate;
      Claiming(s.votes, a, s.revision > 0, owner, if updatedAfter then 0 else p.votes, share)
      && var wanted := VotePayment(s.(votes := a), p, share, p.lastClaim + THREE_DAYS <= s.votes.now);
        votePay == if wanted < MIN_PERVOTE_DAILY_PAY then 0 else wanted
    ensures var p := s.votes.producers[owner];
      var updatedAfter := p.lastClaim + THREE_DAYS <= p.lastUpdate;
      var v := UpdateTotalShare(a, -share, if updatedAfter then p.votes else 0);
      && owner in a.producers
      && ClaimVotes(s, owner)
         == (v.(producers := a.producers[owner := a.producers[owner].(lastClaim := s.votes.now, unpaidBlocks := 0)]),
             votePay)
  {
    hide UpdateTotalShare, UpdateShare, VotePayment;
    var p := s.votes.producers[owner];
    var updatedAfter := p.lastClaim + THREE_DAYS <= p.lastUpdate;
    var p1 := a.producers[owner];
    var p2 := p1.(lastClaim := s.votes.now, unpaidBlocks := 0);
    var v1 := if s.revision > 0 then UpdateTotalShare(s.votes, 0, 0) else s.votes;
    SamePayment(s.(votes := v1), a, p, share, p.lastClaim + THREE_DAYS <= s.votes.now);
    assert v1.producers == s.votes.producers && v1.now == s.votes.now by { TotalsKeepRows(s.votes, 0, 0); }
    TotalsCommute(v1, a, share, if updatedAfter then p.votes else 0);
    assert s.votes.producers[owner := p1][owner := p2] == s.votes.producers[owner := p2];
  }

  lemma TotalsKeepRows(v: VoteState, share: int, rate: int)
    ensures UpdateTotalShare(v, share, rate).producers == v.producers && UpdateTotalShare(v, share, rate).now == v.now
  {
  }

  /** What an action that was performed keeps. */
  lemma StepKeeps(s: PayState, a: Action)
    requires Acyclic(Edges(s.votes.voters)) && Proxies(s.votes.voters) && Exec(s, a).Ok?
    ensures var s1 := Exec(s, a).value;
      && (Books(s) && Admissible(a) ==> Books(s1))
      && (VotePay(s.votes, Tab(0, 0)) && s.votes.now > 0 && SustainedAction(s.votes, a) ==>
            VotePay(s1.votes, Tab(0, 0)) && s1.votes.now > 0)
      && (PayInv(s) && Admissible(a) && CleanAction(s.votes, a) ==> PayInv(s1))
  {
    hide Exec, PayInv, Books, VotePay, Proxies, Acyclic, Edges, CleanAction, SustainedAction, Admissible;
    if Books(s) && Admissible(a) {
      ExecBooks(s, a);
    }
    if VotePay(s.votes, Tab(0, 0)) && s.votes.now > 0 && SustainedAction(s.votes, a) {
      ExecPay(s, a);
    }
    if PayInv(s) && Admissible(a) && CleanAction(s.votes, a) {
      ExecKeeps(s, a);
    }
  }
}
