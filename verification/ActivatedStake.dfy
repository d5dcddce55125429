/** Which stake counts as activated: exactly that of the voters whose last weight is positive, as long as
    nobody's stake changes once it weighs something, and nobody becomes a proxy with a stake that never
    voted. */
module ActivatedStake {
  import opened Basics
  import opened Tables
  import opened Voting
  import opened VotingInvariant
  import opened VoteCast
  import opened ProducerPay
  import opened ProxyGraph
  import opened PayRuns
  import opened VoteEffects
  import opened DroppedChanges

  /** The stake of a voter that counts as having voted: one with a positive last weight. */
  function CastStake(row: Voter): int {
    if row.lastWeight > 0 then row.staked else 0
  }

  /** By how much the activated stake differs from the stake of those with a positive last weight. */
  ghost function Miscounted(v: VoteState): int {
    v.totalActivated - SumOf(v.voters, CastStake)
  }

  function Actor(a: Action): Name {
    match a
    case Vote(voter, _, _) => voter
    case RegProxy(voter, _) => voter
    case Stake(voter, _) => voter
    case SyncRexStake(voter, _) => voter
    case _ => NO_NAME
  }

  /** Nobody but `v` starts or stops counting as having voted with a stake. */
  ghost predicate OthersCast(s: VoteState, s1: VoteState, v: Name) {
    forall u | u in s.voters && u != v :: u in s1.voters && CastStake(s1.voters[u]) == CastStake(s.voters[u])
  }

  /** The weight the row would be given now. */
  function WeightNow(v: VoteState, staked: int, isProxy: bool, received: int): int {
    v.weigh(staked, v.now) + (if isProxy then received else 0)
  }

  /** When an action activates exactly what it makes count: a vote, if the stake weighs something; a
      registration as a proxy, if it does not make the stake count or stop counting; a change of stake,
      if the vote does not count yet, or if nothing changes. */
  predicate CountsOnce(v: VoteState, a: Action) {
    match a
    case Vote(voter, _, _) =>
      voter in v.voters ==>
        var row := v.voters[voter];
        row.staked == 0 || WeightNow(v, row.staked, row.isProxy, row.proxied) > 0
    case RegProxy(voter, isProxy) =>
      voter in v.voters ==>
        var row := v.voters[voter];
        row.staked == 0 || (row.lastWeight > 0 <==> WeightNow(v, row.staked, isProxy, row.proxied) > 0)
    case Stake(voter, delta) =>
      voter in v.voters ==>
        var row := v.voters[voter];
        var weight := WeightNow(v, row.staked + delta, row.isProxy, row.proxied);
        if !HasVote(row) then delta == 0 || row.lastWeight <= 0
        else if row.lastWeight <= 0 then weight > 0 || row.staked + delta == 0
        else if weight > 0 then delta == 0 else row.staked == 0
    case SyncRexStake(voter, delta) =>
      voter in v.voters ==> delta == 0 || v.voters[voter].lastWeight <= 0
    case _ => true
  }

  lemma RowCasts(s: VoteState, s1: VoteState, v: Name)
    requires s1.voters.Keys == s.voters.Keys + {v} && OthersCast(s, s1, v)
    ensures SumOf(s1.voters, CastStake)
         == SumOf(s.voters, CastStake) - Part(s.voters, CastStake, v) + CastStake(s1.voters[v])
  {
    SumErase(s.voters, CastStake, v);
    SumErase(s1.voters, CastStake, v);
    SumCongruent(s1.voters - {v}, s.voters - {v}, CastStake, CastStake);
  }

  /** As long as nobody else starts or stops counting, the activated stake stays that of the voters who
      count if and only if the action counts its stake once. */
  lemma ActivationKept(s: PayState, a: Action)
    requires Acyclic(Edges(s.votes.voters)) && Proxies(s.votes.voters) && Exec(s, a).Ok?
    requires OthersCast(s.votes, Exec(s, a).value.votes, Actor(a))
    ensures Miscounted(Exec(s, a).value.votes) == Miscounted(s.votes) <==> CountsOnce(s.votes, a)
  {
    hide Acyclic, Edges, Proxies, UpdateVotes, RegisterProxy, ChangeStake, ClaimRewards, SumOf, OthersCast, Weighed,
         Used;
    var v, v1 := s.votes, Exec(s, a).value.votes;
    match a
    case Vote(voter, proxy, names) =>
      VoteMoves(v, voter, proxy, names, true);
      RowCasts(v, v1, voter);
    case RegProxy(voter, isProxy) =>
      RegProxyMoves(v, voter, isProxy);
      RowCasts(v, v1, voter);
    case Stake(voter, delta) =>
      StakeVoteMoves(v, voter, delta);
      RowCasts(v, v1, voter);
    case SyncRexStake(voter, delta) =>
      if voter in v.voters {
        RowCasts(v, v1, voter);
      }
    case Claim(producer) =>
      ClaimActivates(s, producer);
      ClaimKeepsVoters(s, producer);
    case _ =>
  }

  // ---------- runs ----------

  /** Whoever is a registered proxy, or is used as one. */
  predicate ProxyRole(voters: map<Name, Voter>, u: Name)
    requires u in voters
  {
    voters[u].isProxy || Used(voters, u)
  }

  predicate Settled(row: Voter) {
    row.staked == 0 || row.lastWeight > 0
  }

  /** No stake is negative, and proxies with a stake weigh something already. */
  ghost predicate ProxiesSettled(v: VoteState) {
    forall u | u in v.voters :: v.voters[u].staked >= 0 && (ProxyRole(v.voters, u) ==> Settled(v.voters[u]))
  }

  /** A stake does not change once it weighs something; nobody becomes a proxy, or stops being one, with a
      stake that weighs nothing yet; and a proxy gets its stake only with a vote that is refreshed. */
  predicate Orderly(v: VoteState, a: Action) {
    match a
    case RegProxy(voter, _) => voter in v.voters ==> Settled(v.voters[voter])
    case Stake(voter, delta) =>
      voter in v.voters ==>
        || delta == 0
        || (v.voters[voter].lastWeight <= 0 && (ProxyRole(v.voters, voter) ==> HasVote(v.voters[voter])))
    case SyncRexStake(voter, delta) =>
      voter in v.voters ==>
        || delta == 0
        || (&& v.voters[voter].lastWeight <= 0 && v.voters[voter].staked + delta >= 0
            && !ProxyRole(v.voters, voter))
    case _ => true
  }

  /** Every stake weighs something. */
  ghost predicate StakesWeigh(v: VoteState) {
    forall stake: int, now: nat :: stake > 0 ==> v.weigh(stake, now) > 0
  }

  /** Accounts have names, and no proxy received less than nothing. */
  ghost predicate NothingOwed(v: VoteState) {
    NO_NAME !in v.voters && forall u | u in v.voters :: v.voters[u].proxied >= 0
  }

  /** A proxy that weights passed through counts with its stake as before. */
  lemma OthersSettled(v: VoteState, v1: VoteState, actor: Name, top: Name)
    requires OtherRows(v, v1, actor, top) && ProxiesSettled(v) && StakesWeigh(v)
    requires NothingOwed(v1)
    requires top == actor || top !in v.voters || Settled(v.voters[top])
    ensures OthersCast(v, v1, actor) && v1.voters.Keys == v.voters.Keys + {actor}
    ensures forall u | u in v.voters && u != actor ::
      v1.voters[u].staked == v.voters[u].staked && v1.voters[u].isProxy == v.voters[u].isProxy
    ensures forall u | u in v.voters && u != actor && (ProxyRole(v.voters, u) || u == top) :: Settled(v1.voters[u])
  {
    hide Used;
  }

  lemma ProxiesStaySettled(v: VoteState, v1: VoteState, actor: Name, top: Name)
    requires OtherRows(v, v1, actor, top) && ProxiesSettled(v) && actor in v1.voters
    requires forall u | u in v.voters && u != actor ::
      v1.voters[u].staked == v.voters[u].staked && v1.voters[u].isProxy == v.voters[u].isProxy
    requires forall u | u in v.voters && u != actor && (ProxyRole(v.voters, u) || u == top) :: Settled(v1.voters[u])
    requires v1.voters[actor].proxy == top || v1.voters[actor].proxy == NO_NAME
          || (actor in v.voters && v1.voters[actor].proxy == v.voters[actor].proxy)
    requires v1.voters[actor].staked >= 0
    requires ProxyRole(v1.voters, actor) ==> Settled(v1.voters[actor])
    requires NO_NAME !in v1.voters
    ensures ProxiesSettled(v1)
  {
    forall u | u in v1.voters && u != actor && ProxyRole(v1.voters, u)
      ensures Settled(v1.voters[u])
    {
      if !v1.voters[u].isProxy {
        var w :| w in v1.voters && v1.voters[w].proxy == u;
        assert u == top || v.voters[w].proxy == u;
      }
    }
  }

  /** A run of orderly actions in which no proxy ever holds less than nothing. */
  ghost predicate OrderlyRun(genesis: PayState, actions: seq<Action>)
    requires Proxies(genesis.votes.voters)
  {
    actions == [] ||
    var rest, a := actions[..|actions| - 1], actions[|actions| - 1];
    && OrderlyRun(genesis, rest) && Admissible(a) && Orderly(Run(genesis, rest).votes, a)
    && NothingOwed(Run(genesis, actions).votes)
  }

  /** What an orderly action leaves orderly: it counts its stake once, changes nobody else's, and leaves
      proxies settled. */
  ghost predicate InOrder(v: VoteState, v1: VoteState, a: Action) {
    OthersCast(v, v1, Actor(a)) && CountsOnce(v, a) && ProxiesSettled(v1)
  }

  lemma RoleSettled(v: VoteState, u: Name)
    requires ProxiesSettled(v) && u in v.voters && ProxyRole(v.voters, u)
    ensures Settled(v.voters[u])
  {
  }

  lemma VoteInOrder(v: VoteState, voter: Name, proxy: Name, names: seq<Name>)
    requires Acyclic(Edges(v.voters)) && Proxies(v.voters) && UpdateVotes(v, voter, proxy, names, true).Ok?
    requires NothingOwed(v) && NothingOwed(UpdateVotes(v, voter, proxy, names, true).value)
    requires ProxiesSettled(v) && StakesWeigh(v)
    ensures InOrder(v, UpdateVotes(v, voter, proxy, names, true).value, Vote(voter, proxy, names))
  {
    hide Acyclic, Edges, Proxies, UpdateVotes, OtherRows, OthersCast, Used;
    VoteMoves(v, voter, proxy, names, true);
    var v1 := UpdateVotes(v, voter, proxy, names, true).value;
    if proxy in v.voters {
      RoleSettled(v, proxy);
    }
    OthersSettled(v, v1, voter, proxy);
    ProxiesStaySettled(v, v1, voter, proxy);
  }

  lemma RegProxyInOrder(v: VoteState, voter: Name, isProxy: bool)
    requires Acyclic(Edges(v.voters)) && Proxies(v.voters) && RegisterProxy(v, voter, isProxy).Ok?
    requires NothingOwed(v) && NothingOwed(RegisterProxy(v, voter, isProxy).value)
    requires ProxiesSettled(v) && StakesWeigh(v) && Orderly(v, RegProxy(voter, isProxy))
    ensures InOrder(v, RegisterProxy(v, voter, isProxy).value, RegProxy(voter, isProxy))
  {
    hide Acyclic, Edges, Proxies, RegisterProxy, OtherRows, OthersCast, Used;
    RegProxyMoves(v, voter, isProxy);
    var v1 := RegisterProxy(v, voter, isProxy).value;
    OthersSettled(v, v1, voter, voter);
    ProxiesStaySettled(v, v1, voter, voter);
  }

  lemma StakeInOrder(v: VoteState, voter: Name, delta: int)
    requires Acyclic(Edges(v.voters)) && Proxies(v.voters) && ChangeStake(v, voter, delta).Ok?
    requires NothingOwed(v) && NothingOwed(ChangeStake(v, voter, delta).value)
    requires ProxiesSettled(v) && StakesWeigh(v) && Orderly(v, Stake(voter, delta))
    ensures InOrder(v, ChangeStake(v, voter, delta).value, Stake(voter, delta))
  {
    hide Acyclic, Edges, Proxies, ChangeStake, OtherRows, OthersCast, Used;
    StakeVoteMoves(v, voter, delta);
    var v1 := ChangeStake(v, voter, delta).value;
    var proxy := v1.voters[voter].proxy;
    if proxy in v.voters {
      assert Used(v.voters, proxy) by { UsedBy(v.voters, v.voters, voter); }
      RoleSettled(v, proxy);
    }
    OthersSettled(v, v1, voter, proxy);
    StakedRole(v, v1, voter);
    ProxiesStaySettled(v, v1, voter, proxy);
  }

  lemma SyncInOrder(v: VoteState, voter: Name, delta: int)
    requires Proxies(v.voters) && ProxiesSettled(v) && Orderly(v, SyncRexStake(voter, delta)) && NO_NAME !in v.voters
    ensures InOrder(v, SyncStake(v, voter, delta), SyncRexStake(voter, delta))
  {
    hide Acyclic, Proxies;
    var v1 := SyncStake(v, voter, delta);
    if voter in v.voters {
      forall u | u in v.voters && ProxyRole(v1.voters, u)
        ensures ProxyRole(v.voters, u)
      {
        if !v1.voters[u].isProxy {
          var w :| w in v1.voters && v1.voters[w].proxy == u;
          assert v.voters[w].proxy == u;
        }
      }
    }
  }

  /** A stake change makes nobody a proxy. */
  lemma StakedRole(v: VoteState, v1: VoteState, voter: Name)
    requires voter in v1.voters && OtherRows(v, v1, voter, v1.voters[voter].proxy) && Proxies(v.voters)
    requires if voter in v.voters then v1.voters[voter].proxy == v.voters[voter].proxy
               && v1.voters[voter].isProxy == v.voters[voter].isProxy
             else v1.voters[voter].proxy == NO_NAME && !v1.voters[voter].isProxy
    requires voter != NO_NAME
    ensures ProxyRole(v1.voters, voter) ==> voter in v.voters && ProxyRole(v.voters, voter)
  {
    hide Acyclic;
    if Used(v1.voters, voter) {
      var w :| w in v1.voters && v1.voters[w].proxy == voter;
      assert w in v.voters && v.voters[w].proxy == voter;
    }
  }

  lemma ExecInOrder(s: PayState, a: Action)
    requires Acyclic(Edges(s.votes.voters)) && Proxies(s.votes.voters) && Exec(s, a).Ok?
    requires NothingOwed(s.votes) && NothingOwed(Exec(s, a).value.votes)
    requires ProxiesSettled(s.votes) && StakesWeigh(s.votes) && Orderly(s.votes, a)
    ensures InOrder(s.votes, Exec(s, a).value.votes, a) && Exec(s, a).value.votes.weigh == s.votes.weigh
  {
    hide Acyclic, Edges, Proxies, UpdateVotes, RegisterProxy, ChangeStake, ClaimRewards, InOrder, NothingOwed,
         ProxiesSettled, StakesWeigh, Orderly, Used, Weighed;
    match a
    case Vote(voter, proxy, names) =>
      VoteMoves(s.votes, voter, proxy, names, true);
      VoteInOrder(s.votes, voter, proxy, names);
    case RegProxy(voter, isProxy) =>
      RegProxyMoves(s.votes, voter, isProxy);
      RegProxyInOrder(s.votes, voter, isProxy);
    case Stake(voter, delta) =>
      StakeVoteMoves(s.votes, voter, delta);
      StakeInOrder(s.votes, voter, delta);
    case SyncRexStake(voter, delta) =>
      assert NO_NAME !in s.votes.voters by { Named(s.votes); }
      SyncInOrder(s.votes, voter, delta);
    case Claim(producer) =>
      ClaimKeepsVoters(s, producer);
      ClaimWeighs(s, producer);
      StillInOrder(s.votes, Exec(s, a).value.votes, a);
    case Tick(_) => StillInOrder(s.votes, Exec(s, a).value.votes, a);
    case RegProducer(_) => StillInOrder(s.votes, Exec(s, a).value.votes, a);
    case UnregProducer(_) => StillInOrder(s.votes, Exec(s, a).value.votes, a);
    case Block(_) => StillInOrder(s.votes, Exec(s, a).value.votes, a);
    case SetRevision(_) => StillInOrder(s.votes, Exec(s, a).value.votes, a);
    case Outside(_, _, _) => StillInOrder(s.votes, Exec(s, a).value.votes, a);
  }

  lemma Named(v: VoteState)
    requires NothingOwed(v)
    ensures NO_NAME !in v.voters
  {
  }

  lemma ClaimWeighs(s: PayState, owner: Name)
    requires ClaimRewards(s, owner).Ok?
    ensures ClaimRewards(s, owner).value.votes.weigh == s.votes.weigh
  {
    hide UpdateShare, NewTokens, BlockPay, VotePayment;
  }

  lemma StillInOrder(v: VoteState, v1: VoteState, a: Action)
    requires v1.voters == v.voters && ProxiesSettled(v)
    requires !a.Vote? && !a.RegProxy? && !a.Stake? && !a.SyncRexStake?
    ensures InOrder(v, v1, a)
  {
    hide Used;
  }

  /** From an empty chain, in every orderly run: the activated stake is the stake of the voters whose last
      weight is positive, however often they vote, for whom, and whatever passes through proxies. */
  lemma {:induction false} ActivatedExactly(genesis: PayState, actions: seq<Action>)
    requires Initial(genesis) && genesis.votes.totalActivated == 0 && Proxies(genesis.votes.voters)
    requires StakesWeigh(genesis.votes) && OrderlyRun(genesis, actions)
    ensures var v := Run(genesis, actions).votes;
      && v.totalActivated == SumOf(v.voters, CastStake)
      && ProxiesSettled(v) && NothingOwed(v) && v.weigh == genesis.votes.weigh
  {
    hide Exec, Acyclic, Proxies, Edges, SumOf, ProxiesSettled, NothingOwed, StakesWeigh, Orderly, InOrder, CountsOnce,
         Admissible;
    if actions == [] {
      NobodyCast(genesis.votes);
    } else {
      var rest, a := actions[..|actions| - 1], actions[|actions| - 1];
      ActivatedExactly(genesis, rest);
      var s := Run(genesis, rest);
      ProxiesAcyclic(s.votes.voters);
      if Exec(s, a).Ok? {
        assert StakesWeigh(s.votes) by { SameStakesWeigh(genesis.votes, s.votes); }
        ExecInOrder(s, a);
        OrderMeans(s.votes, Exec(s, a).value.votes, a);
        ActivationKept(s, a);
      }
    }
  }

  lemma OrderMeans(v: VoteState, v1: VoteState, a: Action)
    requires InOrder(v, v1, a)
    ensures OthersCast(v, v1, Actor(a)) && CountsOnce(v, a) && ProxiesSettled(v1)
  {
  }

  lemma SameStakesWeigh(v: VoteState, v1: VoteState)
    requires StakesWeigh(v) && v1.weigh == v.weigh
    ensures StakesWeigh(v1)
  {
  }

  lemma NobodyCast(v: VoteState)
    requires v.voters == map[]
    ensures SumOf(v.voters, CastStake) == 0 && ProxiesSettled(v) && NothingOwed(v)
  {
  }

  /** Orderly actions in a run that drops no change of weight are such a run. */
  lemma {:induction false} CleanRunOrderly(genesis: PayState, actions: seq<Action>)
    requires Initial(genesis) && Proxies(genesis.votes.voters) && CleanRun(genesis, actions)
    requires forall i | 0 <= i < |actions| :: Orderly(Run(genesis, actions[..i]).votes, actions[i])
    ensures OrderlyRun(genesis, actions)
  {
    hide Exec, Acyclic, Proxies, Edges, NothingOwed, Orderly, Admissible, CleanAction, Run, Initial, PayInv;
    if actions != [] {
      var rest, a := actions[..|actions| - 1], actions[|actions| - 1];
      forall i | 0 <= i < |rest|
        ensures Orderly(Run(genesis, rest[..i]).votes, rest[i])
      {
        assert rest[..i] == actions[..i];
      }
      CleanRunOrderly(genesis, rest);
      ReachableInv(genesis, actions);
      CleanOwesNothing(Run(genesis, actions));
    }
  }

  lemma CleanOwesNothing(s: PayState)
    requires PayInv(s)
    ensures NothingOwed(s.votes)
  {
    hide SumOf, Acyclic, Tally, VotePay;
    forall u | u in s.votes.voters
      ensures u != NO_NAME && s.votes.voters[u].proxied >= 0
    {
      assert VoterOk(s.votes.voters[u], u, s.votes.voters, s.votes.producers);
      AllReceivedNonNegative(s.votes, u);
    }
  }

  // ---------- a stake that is never activated ----------

  /** An account with a stake becomes a proxy, and only then votes. */
  function ProxyFirst(stake: nat): seq<Action> {
    [RegProducer(PRODUCER), Stake(LEADER, stake), RegProxy(LEADER, true), Vote(LEADER, NO_NAME, [PRODUCER])]
  }

  /** Becoming a proxy gave it a last weight, so its first vote activates nothing: all of its stake counts
      for the producer and none of it towards the threshold. */
  lemma NeverActivated(stake: nat)
    requires stake > 0
    ensures Initial(Genesis()) && Proxies(Genesis().votes.voters)
    ensures var v := Run(Genesis(), ProxyFirst(stake)).votes;
      v == At(map[LEADER := Voter(LEADER, NO_NAME, [PRODUCER], stake, stake, 0, true)],
        map[PRODUCER := Fresh(stake, true)], 0, stake, stake)
  {
    hide Leads, UpdateVotes, RegisterProxy, Acyclic, Edges, YearlyWeight;
    Starts();
    var v0 := At(map[], map[], 0, 0, 0);
    RegistrationLeads([], v0, PRODUCER);
    var v1 := RegisterProducer(v0, PRODUCER);
    var a1 := [RegProducer(PRODUCER)];
    assert [] + a1 == a1;
    LeadsAcyclic(a1, v1);
    var v2 := v1.(voters := map[LEADER := Voter(LEADER, NO_NAME, [], stake, 0, 0, false)]);
    assert ChangeStake(v1, LEADER, stake) == Ok(v2);
    StakeLeads(a1, v1, LEADER, stake, v2);
    var a2 := a1 + [Stake(LEADER, stake)];
    LeadsAcyclic(a2, v2);
    FirstWeight(stake);
    var v3 := v2.(voters := map[LEADER := Voter(LEADER, NO_NAME, [], stake, stake, 0, true)]);
    BecomesProxy(v2, LEADER);
    assert v2.weigh(stake, FIRST) == stake;
    assert v2.voters[LEADER := v2.voters[LEADER].(isProxy := true, lastWeight := stake)] == v3.voters;
    assert RegisterProxy(v2, LEADER, true) == Ok(v3);
    ProxyLeads(a2, v2, LEADER, true, v3);
    var a3 := a2 + [RegProxy(LEADER, true)];
    LeadsAcyclic(a3, v3);
    DirectVote(v3, LEADER, PRODUCER);
    var v4 := UpdateVotes(v3, LEADER, NO_NAME, [PRODUCER], true).value;
    VoteLeads(a3, v3, LEADER, NO_NAME, [PRODUCER], v4);
    assert a3 + [Vote(LEADER, NO_NAME, [PRODUCER])] == ProxyFirst(stake);
    LeadsMeans(ProxyFirst(stake), v4);
  }

  lemma LeadsMeans(actions: seq<Action>, v: VoteState)
    requires Leads(actions, v)
    ensures Initial(Genesis()) && Proxies(Genesis().votes.voters) && Run(Genesis(), actions).votes == v
  {
    hide Acyclic, Edges, Run, Proxies, Genesis, Initial;
    GenesisInitial();
  }

  /** Registering as a proxy stores the weight of the stake. */
  lemma BecomesProxy(s: VoteState, v: Name)
    requires Acyclic(Edges(s.voters)) && v in s.voters && s.lastVpay == s.now && s.totalShare == 0
    requires var row := s.voters[v]; row == Voter(v, NO_NAME, [], row.staked, 0, 0, false)
    ensures RegisterProxy(s, v, true) == Ok(s.(
      voters := s.voters[v := s.voters[v].(isProxy := true, lastWeight := s.weigh(s.voters[v].staked, s.now))]))
  {
    hide Acyclic, Edges, UpdateTotalShare;
    var s1 := Registered(s, v, true);
    NothingToSettle(s1, 0);
    assert SetWeight(s1, v, s.weigh(s.voters[v].staked, s.now)).voters
        == s.voters[v := s.voters[v].(isProxy := true, lastWeight := s.weigh(s.voters[v].staked, s.now))];
  }
}
