/** How far the vote-pay counters lag behind the rows after whole actions and whole runs, and when
    they are exact: nothing is assumed about votes, weights or what was dropped. */
module AggregateRuns {
  import opened Basics
  import opened Tables
  import opened Voting
  import opened VotingInvariant
  import opened VoteCast
  import opened ProducerPay
  import opened ProxyGraph
  import opened VotePayRuns
  import opened Aggregate

  // ---------- the stages of a vote ----------

  ghost function AfterWithdrawal(s: VoteState, v: Name, lag: Lag): Lag
    requires Acyclic(Edges(s.voters)) && v in s.voters
  {
    var voter := s.voters[v];
    if voter.lastWeight > 0 && voter.proxy != NO_NAME && voter.proxy in s.voters then
      AfterPropagation(AddProxied(s, voter.proxy, -voter.lastWeight), voter.proxy, lag)
    else lag
  }

  ghost function AfterGrant(s: VoteState, proxy: Name, weight: int, lag: Lag): Lag
    requires Acyclic(Edges(s.voters))
  {
    if proxy != NO_NAME && proxy in s.voters && weight >= 0 then
      AfterPropagation(AddProxied(s, proxy, weight), proxy, lag)
    else lag
  }

  /** The lag after a vote: what the withdrawal leaves, the grant and the loop start from. */
  ghost function AfterVote(
    s: VoteState, v: Name, proxy: Name, producers: seq<Name>, voting: bool, lag: Lag): Lag
    requires Acyclic(Edges(s.voters)) && UpdateVotes(s, v, proxy, producers, voting).Ok?
  {
    UpdateVotesStages(s, v, proxy, producers, voting);
    var s0 := Activated(s, v);
    var weight := WeightOf(s, s.voters[v]);
    var s1 := WithdrawWeight(s0, v).value;
    var s2 := GrantWeight(s1, proxy, weight, voting).value;
    AfterLoop(s2, Deltas(s.voters[v], proxy, producers, weight),
      AfterGrant(s1, proxy, weight, AfterWithdrawal(s0, v, lag)))
  }

  lemma ShiftVoters(s: VoteState, s1: VoteState, lag: Lag)
    requires s1 == s.(voters := s1.voters)
    ensures Lagging(s1, lag) <==> Lagging(s, lag)
  {
    hide Equations;
    VotersDoNotCount(s, s1, Off(Tab(0, 0), lag));
  }

  lemma WithdrawLag(s: VoteState, v: Name, lag: Lag)
    requires Acyclic(Edges(s.voters)) && Proxies(s.voters) && v in s.voters
    requires Lagging(s, lag) && WithdrawWeight(s, v).Ok?
    ensures Lagging(WithdrawWeight(s, v).value, AfterWithdrawal(s, v, lag))
  {
    hide Acyclic, Propagate, AfterPropagation, Lagging, Proxies;
    var voter := s.voters[v];
    if voter.lastWeight > 0 && voter.proxy != NO_NAME {
      var s1 := AddProxied(s, voter.proxy, -voter.lastWeight);
      ShiftVoters(s, s1, lag);
      ShapeKeepsProxies(s.voters, s1.voters);
      PropagateLag(s1, voter.proxy, lag);
    }
  }

  lemma GrantLag(s: VoteState, proxy: Name, weight: int, voting: bool, lag: Lag)
    requires Acyclic(Edges(s.voters)) && Proxies(s.voters)
    requires Lagging(s, lag) && GrantWeight(s, proxy, weight, voting).Ok?
    ensures Lagging(GrantWeight(s, proxy, weight, voting).value, AfterGrant(s, proxy, weight, lag))
  {
    hide Acyclic, Propagate, AfterPropagation, Lagging, Proxies;
    if proxy != NO_NAME && weight >= 0 {
      var s1 := AddProxied(s, proxy, weight);
      ShiftVoters(s, s1, lag);
      ShapeKeepsProxies(s.voters, s1.voters);
      PropagateLag(s1, proxy, lag);
    }
  }

  lemma UpdateVotesLag(s: VoteState, v: Name, proxy: Name, producers: seq<Name>, voting: bool, lag: Lag)
    requires Acyclic(Edges(s.voters)) && Proxies(s.voters) && Lagging(s, lag)
    requires UpdateVotes(s, v, proxy, producers, voting).Ok?
    ensures Lagging(UpdateVotes(s, v, proxy, producers, voting).value, AfterVote(s, v, proxy, producers, voting, lag))
  {
    hide Acyclic, Edges, WithdrawWeight, GrantWeight, ApplyDeltas, Deltas, UpdateTotalShare, WeightOf, Lagging, Proxies,
         SameShape, AfterWithdrawal, AfterGrant, AfterLoop;
    var voter := s.voters[v];
    var weight := WeightOf(s, voter);
    var s0 := Activated(s, v);
    ActivationDoesNotCount(s, s0, lag);
    WithdrawShape(s0, v);
    WithdrawLag(s0, v, lag);
    var s1 := WithdrawWeight(s0, v).value;
    var lag1 := AfterWithdrawal(s0, v, lag);
    ShapeKeepsProxies(s0.voters, s1.voters);
    GrantShape(s1, proxy, weight, voting);
    GrantLag(s1, proxy, weight, voting, lag1);
    var s2 := GrantWeight(s1, proxy, weight, voting).value;
    var deltas := Deltas(voter, proxy, producers, weight);
    LoopSettled(s2, deltas, voting, AfterGrant(s1, proxy, weight, lag1));
    ShiftVoters(Settled(s2, deltas, voting), UpdateVotes(s, v, proxy, producers, voting).value,
      AfterVote(s, v, proxy, producers, voting, lag));
  }

  lemma ActivationDoesNotCount(s: VoteState, s0: VoteState, lag: Lag)
    requires s0 == s.(totalActivated := s0.totalActivated)
    ensures Lagging(s0, lag) <==> Lagging(s, lag)
  {
    hide SumOf, RowSound;
  }

  // ---------- the other actions ----------

  /** Replacing or adding a row that contributes the same to both sums. */
  lemma RowLag(s: VoteState, name: Name, p: Producer, lag: Lag)
    requires Lagging(s, lag) && RowSound(p, s.now)
    requires CountedVotes(p) == Part(s.producers, CountedVotes, name)
    requires SharesAt(s.now)(p) == Part(s.producers, SharesAt(s.now), name)
    ensures Lagging(s.(producers := s.producers[name := p]), lag)
  {
    hide SumOf, CountedVotes, SharesAt, RowSound;
    SumStore(s.producers, CountedVotes, name, p);
    SumStore(s.producers, SharesAt(s.now), name, p);
  }

  /** A row that keeps its votes, share and times. */
  lemma SameRowLag(s: VoteState, name: Name, p: Producer, lag: Lag)
    requires Lagging(s, lag) && name in s.producers
    requires p.votes == s.producers[name].votes && p.share == s.producers[name].share
    requires p.lastClaim == s.producers[name].lastClaim && p.lastUpdate == s.producers[name].lastUpdate
    ensures Lagging(s.(producers := s.producers[name := p]), lag)
  {
    hide SumOf, Equations;
    RowOfEquations(s, name, Off(Tab(0, 0), lag));
    RowLag(s, name, p, lag);
  }

  lemma RegisterProducerLag(s: VoteState, name: Name, lag: Lag)
    requires Lagging(s, lag) && s.now > 0
    ensures Lagging(RegisterProducer(s, name), lag)
  {
    hide SumOf, Equations, Lagging;
    if name in s.producers {
      assert s.producers[name].lastClaim > 0 by { ClaimedOnce(s, name, lag); }
      SameRowLag(s, name, s.producers[name].(isActive := true), lag);
    } else {
      RowLag(s, name, Producer(0, true, 0, s.now, 0, s.now), lag);
    }
  }

  lemma ClaimedOnce(s: VoteState, name: Name, lag: Lag)
    requires Lagging(s, lag) && name in s.producers
    ensures s.producers[name].lastClaim > 0
  {
    hide SumOf;
  }

  lemma UnregisterProducerLag(s: VoteState, name: Name, lag: Lag)
    requires Lagging(s, lag) && UnregisterProducer(s, name).Ok?
    ensures Lagging(UnregisterProducer(s, name).value, lag)
  {
    hide Lagging;
    SameRowLag(s, name, s.producers[name].(isActive := false), lag);
  }

  lemma BlockLag(s: PayState, producer: Name, lag: Lag)
    requires Lagging(s.votes, lag)
    ensures Lagging(OnBlock(s, producer).votes, lag)
  {
    hide Lagging;
    if s.votes.totalActivated >= MIN_ACTIVATED_STAKE && producer in s.votes.producers {
      var p := s.votes.producers[producer];
      SameRowLag(s.votes, producer, p.(unpaidBlocks := p.unpaidBlocks + 1), lag);
    }
  }

  /** A lagging rate lets the shares fall behind as time passes. */
  lemma TimeLag(s: VoteState, micros: nat, lag: Lag)
    requires Lagging(s, lag)
    ensures Lagging(s.(now := s.now + micros), Lag(lag.rate, lag.share + lag.rate * micros))
  {
    hide SumOf, CountedVotes, SharesAt;
    var later := s.now + micros;
    SharesGrow(s.producers, s.now, later);
    Distribute(s.shareRate, lag.rate, micros);
    Distribute(s.now - s.lastVpay, micros, s.shareRate);
    assert s.shareRate * (later - s.lastVpay) == s.shareRate * (s.now - s.lastVpay) + s.shareRate * micros;
    forall q | q in s.producers
      ensures RowSound(s.producers[q], later)
    {
      assert RowSound(s.producers[q], s.now);
    }
  }

  lemma RegisterProxyLag(s: VoteState, v: Name, isProxy: bool, lag: Lag)
    requires Acyclic(Edges(s.voters)) && Proxies(s.voters) && Lagging(s, lag) && RegisterProxy(s, v, isProxy).Ok?
    ensures Lagging(RegisterProxy(s, v, isProxy).value,
      if v in s.voters then AfterPropagation(Registered(s, v, isProxy), v, lag) else lag)
  {
    hide Acyclic, Propagate, AfterPropagation, Lagging, Proxies;
    if v in s.voters {
      var s1 := Registered(s, v, isProxy);
      if s.voters[v].proxy != NO_NAME {
        ProxyUsers(s.voters, v);
      }
      ShiftVoters(s, s1, lag);
      RowProxies(s.voters, v, s1.voters[v]);
      PropagateLag(s1, v, lag);
    } else {
      ShiftVoters(s, RegisterProxy(s, v, isProxy).value, lag);
    }
  }

  /** A stake change refreshes the vote, if there is one. */
  predicate Refreshes(s: VoteState, v: Name, delta: int) {
    var row := Staked(s, v, delta).voters[v];
    |row.producers| > 0 || row.proxy != NO_NAME
  }

  ghost function AfterStake(s: VoteState, v: Name, delta: int, lag: Lag): Lag
    requires Acyclic(Edges(s.voters)) && ChangeStake(s, v, delta).Ok?
  {
    var s1 := Staked(s, v, delta);
    var row := s1.voters[v];
    if Refreshes(s, v, delta) then AfterVote(s1, v, row.proxy, row.producers, false, lag) else lag
  }

  lemma ChangeStakeLag(s: VoteState, v: Name, delta: int, lag: Lag)
    requires Acyclic(Edges(s.voters)) && Proxies(s.voters) && Lagging(s, lag) && ChangeStake(s, v, delta).Ok?
    ensures Lagging(ChangeStake(s, v, delta).value, AfterStake(s, v, delta, lag))
  {
    hide Acyclic, UpdateVotes, AfterVote, Lagging, Proxies, Edges;
    var s1 := Staked(s, v, delta);
    var row := s1.voters[v];
    if v in s.voters && row.proxy != NO_NAME {
      ProxyUsers(s.voters, v);
    }
    ShiftVoters(s, s1, lag);
    RowProxies(s.voters, v, row);
    if Refreshes(s, v, delta) {
      UpdateVotesLag(s1, v, row.proxy, row.producers, false, lag);
    }
  }

  lemma ClaimRewardsLag(s: PayState, owner: Name, lag: Lag)
    requires Lagging(s.votes, lag) && ClaimRewards(s, owner).Ok?
    ensures Lagging(ClaimRewards(s, owner).value.votes, AfterClaim(s, owner, lag))
  {
    hide Lagging, ClaimVotes, NewTokens, BlockPay, PayIf, AfterSettling, Late;
    ClaimLag(FillBuckets(s).value, owner, lag);
  }

  // ---------- whole actions ----------

  /** The lag after an action, read off the tables before it. */
  ghost function AfterAction(s: PayState, a: Action, lag: Lag): Lag
    requires Acyclic(Edges(s.votes.voters)) && Exec(s, a).Ok?
  {
    match a
    case Tick(micros) => Lag(lag.rate, lag.share + lag.rate * micros)
    case Vote(voter, proxy, names) => AfterVote(s.votes, voter, proxy, names, true, lag)
    case RegProxy(voter, isProxy) =>
      if voter in s.votes.voters then AfterPropagation(Registered(s.votes, voter, isProxy), voter, lag) else lag
    case Stake(voter, delta) => AfterStake(s.votes, voter, delta, lag)
    case Claim(producer) => AfterClaim(s, producer, lag)
    case _ => lag
  }

  lemma ExecLag(s: PayState, a: Action, lag: Lag)
    requires Acyclic(Edges(s.votes.voters)) && Proxies(s.votes.voters) && Lagging(s.votes, lag) && s.votes.now > 0
    requires Exec(s, a).Ok?
    ensures Lagging(Exec(s, a).value.votes, AfterAction(s, a, lag)) && Exec(s, a).value.votes.now > 0
  {
    hide Acyclic, Edges, Proxies, Lagging, UpdateVotes, RegisterProxy, ChangeStake, ClaimRewards, OnBlock,
         RegisterProducer, UnregisterProducer, SyncStake, AfterVote, AfterPropagation, AfterStake, AfterClaim;
    ClockKept(s, a);
    match a
    case Tick(micros) => TimeLag(s.votes, micros, lag);
    case Vote(voter, proxy, names) => UpdateVotesLag(s.votes, voter, proxy, names, true, lag);
    case RegProxy(voter, isProxy) => RegisterProxyLag(s.votes, voter, isProxy, lag);
    case Stake(voter, delta) => ChangeStakeLag(s.votes, voter, delta, lag);
    case SyncRexStake(voter, delta) => SyncLag(s.votes, voter, delta, lag);
    case RegProducer(producer) => RegisterProducerLag(s.votes, producer, lag);
    case UnregProducer(producer) => UnregisterProducerLag(s.votes, producer, lag);
    case Block(producer) => BlockLag(s, producer, lag);
    case Claim(producer) => ClaimRewardsLag(s, producer, lag);
    case _ =>
  }

  lemma SyncLag(s: VoteState, v: Name, delta: int, lag: Lag)
    requires Lagging(s, lag)
    ensures Lagging(SyncStake(s, v, delta), lag)
  {
    hide Lagging;
    ShiftVoters(s, SyncStake(s, v, delta), lag);
  }

  /** A whole action keeps the equations if and only if the lag it leaves is nothing. So a withdrawal
      that goes too far may be made good by the grant of the same vote. */
  lemma ExecEquations(s: PayState, a: Action)
    requires Acyclic(Edges(s.votes.voters)) && Proxies(s.votes.voters) && s.votes.now > 0
    requires Equations(s.votes, Tab(0, 0)) && Exec(s, a).Ok?
    ensures Equations(Exec(s, a).value.votes, Tab(0, 0)) <==> AfterAction(s, a, LEVEL) == LEVEL
  {
    hide Acyclic, Edges, Proxies, Equations, Lagging, Exec, AfterAction;
    LevelMeans(s.votes);
    ExecLag(s, a, LEVEL);
    var v := Exec(s, a).value.votes;
    LevelMeans(v);
    OneLag(v, AfterAction(s, a, LEVEL), LEVEL);
  }

  // ---------- conditions stage by stage ----------

  ghost predicate WithdrawalExact(s: VoteState, v: Name)
    requires Acyclic(Edges(s.voters)) && v in s.voters
  {
    var voter := s.voters[v];
    voter.lastWeight > 0 && voter.proxy != NO_NAME && voter.proxy in s.voters ==>
      LandsExact(AddProxied(s, voter.proxy, -voter.lastWeight), voter.proxy)
  }

  ghost predicate GrantExact(s: VoteState, proxy: Name, weight: int)
    requires Acyclic(Edges(s.voters))
  {
    proxy != NO_NAME && proxy in s.voters && weight >= 0 ==> LandsExact(AddProxied(s, proxy, weight), proxy)
  }

  /** The withdrawal, the grant and the producer loop of a vote each keep the equations. */
  ghost predicate VoteExact(s: VoteState, v: Name, proxy: Name, producers: seq<Name>, voting: bool)
    requires Acyclic(Edges(s.voters)) && UpdateVotes(s, v, proxy, producers, voting).Ok?
  {
    UpdateVotesStages(s, v, proxy, producers, voting);
    var s0 := Activated(s, v);
    var weight := WeightOf(s, s.voters[v]);
    var s1 := WithdrawWeight(s0, v).value;
    var s2 := GrantWeight(s1, proxy, weight, voting).value;
    WithdrawalExact(s0, v) && GrantExact(s1, proxy, weight)
      && DeltasExact(s2, Deltas(s.voters[v], proxy, producers, weight))
  }

  lemma WithdrawalLevel(s: VoteState, v: Name)
    requires Acyclic(Edges(s.voters)) && v in s.voters && Equations(s, Tab(0, 0))
    ensures AfterWithdrawal(s, v, LEVEL) == LEVEL <==> WithdrawalExact(s, v)
  {
    hide Acyclic, Edges, Equations, AfterPropagation, LandsExact;
    var voter := s.voters[v];
    if voter.lastWeight > 0 && voter.proxy != NO_NAME && voter.proxy in s.voters {
      var s1 := AddProxied(s, voter.proxy, -voter.lastWeight);
      VotersDoNotCount(s, s1, Tab(0, 0));
      LandsLevel(s1, voter.proxy);
    }
  }

  lemma GrantLevel(s: VoteState, proxy: Name, weight: int)
    requires Acyclic(Edges(s.voters)) && Equations(s, Tab(0, 0))
    ensures AfterGrant(s, proxy, weight, LEVEL) == LEVEL <==> GrantExact(s, proxy, weight)
  {
    hide Acyclic, Edges, Equations, AfterPropagation, LandsExact;
    if proxy != NO_NAME && proxy in s.voters && weight >= 0 {
      var s1 := AddProxied(s, proxy, weight);
      VotersDoNotCount(s, s1, Tab(0, 0));
      LandsLevel(s1, proxy);
    }
  }

  lemma VoteLevel(s: VoteState, v: Name, proxy: Name, producers: seq<Name>, voting: bool)
    requires Acyclic(Edges(s.voters)) && Proxies(s.voters) && Equations(s, Tab(0, 0))
    requires UpdateVotes(s, v, proxy, producers, voting).Ok? && VoteExact(s, v, proxy, producers, voting)
    ensures AfterVote(s, v, proxy, producers, voting, LEVEL) == LEVEL
  {
    hide Acyclic, Edges, Proxies, Equations, Lagging, UpdateVotes, WithdrawWeight, GrantWeight, Deltas, WeightOf,
         SameShape, AfterWithdrawal, AfterGrant, AfterLoop, WithdrawalExact, GrantExact, DeltasExact;
    UpdateVotesStages(s, v, proxy, producers, voting);
    var weight := WeightOf(s, s.voters[v]);
    var s0 := Activated(s, v);
    LevelMeans(s);
    ActivationDoesNotCount(s, s0, LEVEL);
    LevelMeans(s0);
    WithdrawalLevel(s0, v);
    WithdrawLag(s0, v, LEVEL);
    var s1 := WithdrawWeight(s0, v).value;
    LevelMeans(s1);
    WithdrawShape(s0, v);
    ShapeKeepsProxies(s0.voters, s1.voters);
    GrantLevel(s1, proxy, weight);
    GrantLag(s1, proxy, weight, voting, LEVEL);
    var s2 := GrantWeight(s1, proxy, weight, voting).value;
    LevelMeans(s2);
    DeltasLevel(s2, Deltas(s.voters[v], proxy, producers, weight));
  }

  /** Each stage of the action keeps the equations. */
  ghost predicate ExactAction(s: VoteState, a: Action)
    requires Acyclic(Edges(s.voters))
  {
    match a
    case Vote(voter, proxy, names) =>
      UpdateVotes(s, voter, proxy, names, true).Ok? ==> VoteExact(s, voter, proxy, names, true)
    case RegProxy(voter, isProxy) => voter in s.voters ==> LandsExact(Registered(s, voter, isProxy), voter)
    case Stake(voter, delta) =>
      var s1 := Staked(s, voter, delta);
      var row := s1.voters[voter];
      Refreshes(s, voter, delta) && UpdateVotes(s1, voter, row.proxy, row.producers, false).Ok? ==>
        VoteExact(s1, voter, row.proxy, row.producers, false)
    case Claim(producer) => producer in s.producers ==> ClaimExact(s, producer)
    case _ => true
  }

  /** An action whose stages are exact is exact; for all but votes and their refreshes, which have
      more than one stage, there is no other way. */
  lemma ActionLevel(s: PayState, a: Action)
    requires Acyclic(Edges(s.votes.voters)) && Proxies(s.votes.voters) && Equations(s.votes, Tab(0, 0))
    requires Exec(s, a).Ok?
    ensures ExactAction(s.votes, a) ==> AfterAction(s, a, LEVEL) == LEVEL
    ensures !a.Vote? && !a.Stake? && AfterAction(s, a, LEVEL) == LEVEL ==> ExactAction(s.votes, a)
  {
    hide Acyclic, Edges, Proxies, Equations, UpdateVotes, AfterVote, AfterPropagation, AfterClaim, VoteExact,
         LandsExact, ClaimExact, Propagate, PayOut, FillBuckets;
    match a
    case Vote(voter, proxy, names) =>
      if ExactAction(s.votes, a) {
        VoteLevel(s.votes, voter, proxy, names, true);
      }
    case RegProxy(voter, isProxy) =>
      if voter in s.votes.voters {
        var s1 := Registered(s.votes, voter, isProxy);
        VotersDoNotCount(s.votes, s1, Tab(0, 0));
        LandsLevel(s1, voter);
      }
    case Stake(voter, delta) =>
      if ExactAction(s.votes, a) && Refreshes(s.votes, voter, delta) {
        StakeLevel(s.votes, voter, delta);
      }
    case Claim(producer) => ClaimLevel(s, producer);
    case _ =>
  }

  lemma StakeLevel(s: VoteState, v: Name, delta: int)
    requires Acyclic(Edges(s.voters)) && Proxies(s.voters) && Equations(s, Tab(0, 0)) && ChangeStake(s, v, delta).Ok?
    requires Refreshes(s, v, delta) && ExactAction(s, Stake(v, delta))
    ensures AfterStake(s, v, delta, LEVEL) == LEVEL
  {
    hide Acyclic, Edges, Proxies, Equations, UpdateVotes, AfterVote, VoteExact;
    var s1 := Staked(s, v, delta);
    var row := s1.voters[v];
    if v in s.voters && row.proxy != NO_NAME {
      ProxyUsers(s.voters, v);
    }
    VotersDoNotCount(s, s1, Tab(0, 0));
    RowProxies(s.voters, v, row);
    VoteLevel(s1, v, row.proxy, row.producers, false);
  }

  // ---------- runs ----------

  /** The lag after a run: aborted actions leave it as it was. */
  ghost function RunLag(genesis: PayState, actions: seq<Action>): Lag
    requires Proxies(genesis.votes.voters)
  {
    if actions == [] then LEVEL
    else
      var rest, a := actions[..|actions| - 1], actions[|actions| - 1];
      var s := Run(genesis, rest);
      ProxiesAcyclic(s.votes.voters);
      if Exec(s, a).Ok? then AfterAction(s, a, RunLag(genesis, rest)) else RunLag(genesis, rest)
  }

  lemma {:induction false} RunLags(genesis: PayState, actions: seq<Action>)
    requires Initial(genesis) && Proxies(genesis.votes.voters)
    ensures Lagging(Run(genesis, actions).votes, RunLag(genesis, actions)) && Run(genesis, actions).votes.now > 0
  {
    hide Exec, AfterAction, Acyclic, Proxies, Edges, Lagging;
    if actions == [] {
      InitialPay(genesis.votes);
      PayIsEquations(genesis.votes);
      LevelMeans(genesis.votes);
    } else {
      var rest, a := actions[..|actions| - 1], actions[|actions| - 1];
      RunLags(genesis, rest);
      var s := Run(genesis, rest);
      ProxiesAcyclic(s.votes.voters);
      if Exec(s, a).Ok? {
        ExecLag(s, a, RunLag(genesis, rest));
      }
    }
  }

  /** After any actions whatever, the global counters are the sums they stand for less the lag, and
      the rows are in order; so they are exact if and only if the lag is nothing. */
  lemma CountersOverRuns(genesis: PayState, actions: seq<Action>)
    requires Initial(genesis) && Proxies(genesis.votes.voters)
    ensures var v := Run(genesis, actions).votes; var lag := RunLag(genesis, actions);
      && v.shareRate == SumOf(v.producers, CountedVotes) - lag.rate >= 0
      && v.totalShare + v.shareRate * (v.now - v.lastVpay) == SumOf(v.producers, SharesAt(v.now)) - lag.share >= 0
      && (forall q | q in v.producers :: v.producers[q].share >= 0)
      && (forall q | q in v.producers && !Counted(v.producers[q]) :: v.producers[q].share == 0)
      && (Equations(v, Tab(0, 0)) <==> lag == LEVEL)
  {
    hide Acyclic, Proxies, Run, RunLag, Lagging, Equations, SumOf;
    RunLags(genesis, actions);
    var v, lag := Run(genesis, actions).votes, RunLag(genesis, actions);
    LagMeans(v, lag);
    LevelMeans(v);
    OneLag(v, lag, LEVEL);
  }

  lemma LagMeans(v: VoteState, lag: Lag)
    requires Lagging(v, lag)
    ensures v.shareRate == SumOf(v.producers, CountedVotes) - lag.rate >= 0
    ensures v.totalShare + v.shareRate * (v.now - v.lastVpay) == SumOf(v.producers, SharesAt(v.now)) - lag.share >= 0
    ensures forall q | q in v.producers :: v.producers[q].share >= 0
    ensures forall q | q in v.producers && !Counted(v.producers[q]) :: v.producers[q].share == 0
  {
    hide SumOf;
    assert v.shareRate * (v.now - v.lastVpay) >= 0;
  }

  /** Every stage of every action performed in the run keeps the equations. */
  ghost predicate ExactRun(genesis: PayState, actions: seq<Action>)
    requires Proxies(genesis.votes.voters)
  {
    actions == [] ||
    var rest, a := actions[..|actions| - 1], actions[|actions| - 1];
    var s := Run(genesis, rest);
    && ExactRun(genesis, rest)
    && (ProxiesAcyclic(s.votes.voters); Exec(s, a).Ok? ==> ExactAction(s.votes, a))
  }

  /** A run all of whose stages are exact leaves no lag. */
  lemma {:induction false} ExactRunLevel(genesis: PayState, actions: seq<Action>)
    requires Initial(genesis) && Proxies(genesis.votes.voters) && ExactRun(genesis, actions)
    ensures RunLag(genesis, actions) == LEVEL && Equations(Run(genesis, actions).votes, Tab(0, 0))
  {
    hide Exec, AfterAction, Acyclic, Proxies, Edges, Lagging, Equations, ExactAction;
    RunLags(genesis, actions);
    LevelMeans(Run(genesis, actions).votes);
    if actions != [] {
      var rest, a := actions[..|actions| - 1], actions[|actions| - 1];
      ExactRunLevel(genesis, rest);
      var s := Run(genesis, rest);
      ProxiesAcyclic(s.votes.voters);
      if Exec(s, a).Ok? {
        ActionLevel(s, a);
      }
    }
  }

  /** So does a run that drives no producer's votes below zero. */
  lemma SustainedRunLevel(genesis: PayState, actions: seq<Action>)
    requires Initial(genesis) && Proxies(genesis.votes.voters) && SustainedRun(genesis, actions)
    ensures RunLag(genesis, actions) == LEVEL
  {
    hide Acyclic, Proxies, Run, RunLag, Lagging, Equations, SumOf, VotePay, SustainedRun;
    VotePayExact(genesis, actions);
    var v := Run(genesis, actions).votes;
    PayIsEquations(v);
    CountersOverRuns(genesis, actions);
  }
}
