/** Casting a vote, and every other voting action, keeps the voting invariant. */
module VoteCast {
  import opened Basics
  import opened Tables
  import opened Voting
  import opened VotingInvariant
  import opened VotingProofs

  // ---------- the changes a vote makes to producers ----------

  function Amount(deltas: map<Name, Delta>, q: Name): int {
    if q in deltas then deltas[q].amount else 0
  }

  lemma {:induction false} AddDeltasMean(deltas: map<Name, Delta>, names: seq<Name>, amount: int, isNew: bool)
    requires Ascending(names)
    ensures var d := AddDeltas(deltas, names, amount, isNew);
      && (forall q: Name :: Amount(d, q) == Amount(deltas, q) + (if q in names then amount else 0))
      && (forall q | q in d :: q in names || q in deltas)
      && (forall q | q in names :: q in d && d[q].isNew == isNew)
      && (forall q | q in d && q !in names :: q in deltas && d[q] == deltas[q])
  {
    if names != [] {
      var rest, name := names[..|names| - 1], names[|names| - 1];
      assert names == rest + [name];
      AscendingDistinct(names);
      AddDeltasMean(deltas, rest, amount, isNew);
    }
  }

  /** The deltas are what the voter's new row supports more than its old one. */
  lemma DeltasMean(voter: Voter, proxy: Name, producers: seq<Name>, weight: int)
    requires Ascending(voter.producers) && Ascending(producers) && voter.lastWeight >= 0 && weight >= 0
    requires voter.proxy != NO_NAME ==> voter.producers == []
    ensures var d := Deltas(voter, proxy, producers, weight);
      var row := voter.(lastWeight := weight, producers := producers, proxy := proxy);
      && (forall q: Name :: Amount(d, q) == DirectTo(q)(row) - DirectTo(q)(voter))
      && (forall q | q in d :: q in producers || q in voter.producers)
      && (proxy == NO_NAME ==> forall q | q in producers :: q in d && d[q].isNew)
      && (forall q | q in d && d[q].isNew :: proxy == NO_NAME && q in producers)
  {
    if voter.lastWeight > 0 && voter.proxy == NO_NAME {
      AddDeltasMean(map[], voter.producers, -voter.lastWeight, false);
    }
    if proxy == NO_NAME {
      AddDeltasMean(if voter.lastWeight > 0 && voter.proxy == NO_NAME then
        AddDeltas(map[], voter.producers, -voter.lastWeight, false)
                    else map[], producers, weight, true);
    }
  }

  /** No producer lacks the votes that the deltas take. */
  predicate Covered(s: VoteState, deltas: map<Name, Delta>) {
    forall q | q in deltas && q in s.producers :: s.producers[q].votes + deltas[q].amount >= 0
  }

  /** What applying deltas does to the producer rows. */
  ghost predicate Applied(s: VoteState, s1: VoteState, deltas: map<Name, Delta>) {
    && SameProducers(s, s1)
    && (forall q | q in s.producers :: s1.producers[q].votes == s.producers[q].votes + Amount(deltas, q))
    && s1.totalWeight - SumOf(s1.producers, Votes) == s.totalWeight - SumOf(s.producers, Votes)
    && (forall q | q in deltas && deltas[q].isNew :: q in s.producers)
  }

  /** Applying deltas that no producer lacks the votes for: the clamp at zero never fires. */
  lemma {:induction false} ApplyDeltasKeeps(s: VoteState, deltas: map<Name, Delta>, voting: bool, tab: Tab)
    requires VotePay(s, tab) && ApplyDeltas(s, deltas, voting, tab).Ok? && Covered(s, deltas)
    ensures var (s1, tab1) := ApplyDeltas(s, deltas, voting, tab).value; VotePay(s1, tab1) && Applied(s, s1, deltas)
    decreases |deltas.Keys|
  {
    hide SumOf, VotePay, ChangeVotes, Applied, Covered;
    if deltas.Keys != {} {
      var name := Least(deltas.Keys, n => 0);
      var rest := deltas - {name};
      assert rest.Keys == deltas.Keys - {name};
      if name in s.producers {
        var d := deltas[name].amount;
        assert s.producers[name].votes + d >= 0 by { CoveredRow(s, deltas, name); }
        var votes := s.producers[name].votes + d;
        ChangeVotesKeeps(s, name, votes, d, tab);
        var (s1, tab1) := ChangeVotes(s, name, votes, d, tab);
        ChangeVotesRow(s, name, votes, d, tab);
        CoveredRest(s, s1, deltas, name);
        ApplyDeltasKeeps(s1, rest, voting, tab1);
        AppliedStep(s, s1, ApplyDeltas(s1, rest, voting, tab1).value.0, deltas, name);
      } else {
        CoveredRest(s, s, deltas, name);
        ApplyDeltasKeeps(s, rest, voting, tab);
        AppliedSkip(s, ApplyDeltas(s, rest, voting, tab).value.0, deltas, name);
      }
    } else {
      AppliedNone(s, deltas);
    }
  }

  lemma CoveredRow(s: VoteState, deltas: map<Name, Delta>, name: Name)
    requires Covered(s, deltas) && name in deltas && name in s.producers
    ensures s.producers[name].votes + deltas[name].amount >= 0
  {
  }

  lemma CoveredRest(s: VoteState, s1: VoteState, deltas: map<Name, Delta>, name: Name)
    requires Covered(s, deltas) && s1.producers.Keys == s.producers.Keys
    requires forall q | q in s.producers && q != name :: s1.producers[q] == s.producers[q]
    ensures Covered(s1, deltas - {name})
  {
  }

  lemma AppliedNone(s: VoteState, deltas: map<Name, Delta>)
    requires deltas.Keys == {}
    ensures Applied(s, s, deltas)
  {
    hide SumOf;
  }

  lemma AppliedSkip(s: VoteState, s1: VoteState, deltas: map<Name, Delta>, name: Name)
    requires name in deltas && name !in s.producers && !deltas[name].isNew && Applied(s, s1, deltas - {name})
    ensures Applied(s, s1, deltas)
  {
    hide SumOf;
    assert forall q | q in deltas && q != name :: q in deltas - {name};
  }

  lemma AppliedStep(s: VoteState, s1: VoteState, s2: VoteState, deltas: map<Name, Delta>, name: Name)
    requires name in deltas && name in s.producers && SameProducers(s, s1) && Applied(s1, s2, deltas - {name})
    requires s1.producers[name].votes == s.producers[name].votes + deltas[name].amount
    requires forall q | q in s.producers && q != name :: s1.producers[q] == s.producers[q]
    requires s1.totalWeight - SumOf(s1.producers, Votes) == s.totalWeight - SumOf(s.producers, Votes)
    ensures Applied(s, s2, deltas)
  {
    hide SumOf;
    assert forall q | q in deltas && q != name :: q in deltas - {name};
  }

  // ---------- withdrawing and granting proxied weight ----------

  function Withdrawn(voter: Voter): map<Name, int> {
    if voter.lastWeight > 0 && voter.proxy != NO_NAME then AddExt(map[], voter.proxy, -voter.lastWeight) else map[]
  }

  /** Nothing is dropped when the old proxy loses the voter's weight. */
  ghost predicate CleanWithdrawal(s: VoteState, v: Name)
    requires Acyclic(Edges(s.voters)) && v in s.voters
  {
    var voter := s.voters[v];
    voter.lastWeight > 0 && voter.proxy != NO_NAME && voter.proxy in s.voters ==>
      Clean(AddProxied(s, voter.proxy, -voter.lastWeight), voter.proxy)
  }

  ghost predicate CleanGrant(s: VoteState, proxy: Name, weight: int)
    requires Acyclic(Edges(s.voters))
  {
    proxy != NO_NAME && proxy in s.voters && weight >= 0 ==> Clean(AddProxied(s, proxy, weight), proxy)
  }

  /** Columns that stay while proxied weight moves. */
  ghost predicate Moved(s: VoteState, s1: VoteState, v: Name) {
    && s1.voters.Keys == s.voters.Keys && SameProducers(s, s1)
    && s1 == s.(voters := s1.voters, producers := s1.producers, totalWeight := s1.totalWeight,
                totalShare := s1.totalShare, shareRate := s1.shareRate, lastVpay := s1.lastVpay)
    && (forall u | u in s.voters ::
        s1.voters[u] == s.voters[u].(lastWeight := s1.voters[u].lastWeight, proxied := s1.voters[u].proxied))
    && (v in s.voters ==> s1.voters[v] == s.voters[v])
  }

  lemma PropagatedMoved(s: VoteState, p: Name, d: int, s2: VoteState, v: Name)
    requires Acyclic(Edges(s.voters)) && p in s.voters && v in s.voters && v != p && !OnChain(Edges(s.voters), p, v)
    requires Propagated(AddProxied(s, p, d), s2, p)
    ensures Moved(s, s2, v)
  {
    hide Acyclic;
  }

  lemma WithdrawKeeps(s: VoteState, v: Name)
    requires VotersOk(s) && v in s.voters && Tally(s, map[]) && VotePay(s, Tab(0, 0)) && CleanWithdrawal(s, v)
    ensures WithdrawWeight(s, v).Ok?
    ensures var s1 := WithdrawWeight(s, v).value;
      VotersOk(s1) && VotePay(s1, Tab(0, 0)) && Tally(s1, Withdrawn(s.voters[v])) && Moved(s, s1, v)
  {
    hide SumOf, VotePay, Tally, Acyclic, VotersOk, Propagate, AddProxied, Clean, Propagated, Moved, OnChain, Height,
         Edges, AddExt;
    var voter := s.voters[v];
    RowOf(s, v);
    if voter.lastWeight > 0 && voter.proxy != NO_NAME {
      var p := voter.proxy;
      var s1 := AddProxied(s, p, -voter.lastWeight);
      AddProxiedTally(s, p, -voter.lastWeight, map[]);
      AddProxiedOk(s, p, -voter.lastWeight);
      AddProxiedPay(s, p, -voter.lastWeight);
      AddedProxied(s, p, -voter.lastWeight);
      HoldsVoter(s, v);
      EdgeTo(s.voters, v);
      ProxyAboveUser(Edges(s.voters), v);
      ExtOnly(p, -voter.lastWeight);
      PropagateKeeps(s1, p, AddExt(map[], p, -voter.lastWeight));
      PropagatedMoved(s, p, -voter.lastWeight, Propagate(s1, p).value, v);
    } else {
      NothingMoved(s, v);
    }
  }

  lemma ExtOnly(p: Name, d: int)
    ensures forall q | q in AddExt(map[], p, d) :: q == p
  {
  }

  lemma NothingMoved(s: VoteState, v: Name)
    ensures Moved(s, s, v)
  {
  }

  lemma HoldsVoter(s: VoteState, v: Name)
    requires VotersOk(s) && v in s.voters && Tally(s, map[]) && s.voters[v].proxy != NO_NAME
    ensures s.voters[v].proxy in s.voters && s.voters[s.voters[v].proxy].proxied >= s.voters[v].lastWeight
  {
    hide SumOf, Acyclic;
    RowOf(s, v);
    WeightWithinSums(s, v, s.voters[v].proxy);
  }

  /** A proxy's chain contains neither the proxy itself nor any of its users. */
  lemma ProxyAboveUser(edges: map<Name, Name>, v: Name)
    requires Acyclic(edges) && v in edges
    ensures !OnChain(edges, edges[v], edges[v]) && !OnChain(edges, edges[v], v) && edges[v] != v
  {
    HeightFalls(edges, v);
    if OnChain(edges, edges[v], edges[v]) {
      ChainFalls(edges, edges[v], edges[v]);
    }
    if OnChain(edges, edges[v], v) {
      ChainFalls(edges, edges[v], v);
    }
  }

  /** The new proxy is either the old one, or a registered proxy, which has no proxy itself. */
  ghost predicate GoodProxy(s: VoteState, v: Name, proxy: Name) {
    && v in s.voters && proxy in s.voters && proxy != v
    && (s.voters[v].proxy == proxy || s.voters[proxy].isProxy)
  }

  lemma GoodProxyChain(s: VoteState, v: Name, proxy: Name)
    requires VotersOk(s) && GoodProxy(s, v, proxy) && proxy != NO_NAME
    ensures Acyclic(Edges(s.voters)) && !OnChain(Edges(s.voters), proxy, v)
    ensures s.voters[v].proxy != NO_NAME ==> !OnChain(Edges(s.voters), proxy, s.voters[v].proxy)
    ensures s.voters[v].proxy != proxy ==> proxy !in Edges(s.voters)
  {
    RowOf(s, v);
    RowOf(s, proxy);
    if s.voters[v].proxy == proxy {
      ProxyAboveUser(Edges(s.voters), v);
    }
  }

  lemma GrantKeeps(s: VoteState, v: Name, proxy: Name, weight: int, voting: bool)
    requires VotersOk(s) && v in s.voters && VotePay(s, Tab(0, 0)) && weight >= 0
    requires Tally(s, Withdrawn(s.voters[v])) && CleanGrant(s, proxy, weight)
    requires proxy != NO_NAME ==> GoodProxy(s, v, proxy) && (!voting || s.voters[proxy].isProxy)
    ensures GrantWeight(s, proxy, weight, voting).Ok?
    ensures var s1 := GrantWeight(s, proxy, weight, voting).value;
      && VotersOk(s1) && VotePay(s1, Tab(0, 0)) && Moved(s, s1, v)
      && Tally(s1, if proxy != NO_NAME then AddExt(Withdrawn(s.voters[v]), proxy, weight) else Withdrawn(s.voters[v]))
  {
    hide SumOf, VotePay, Tally, Acyclic, VotersOk, Propagate, AddProxied, Clean, Propagated, Moved, GoodProxy, Edges;
    RowOf(s, v);
    if proxy != NO_NAME {
      assert proxy in s.voters && v != proxy by { GoodProxyIn(s, v, proxy); }
      var ext := Withdrawn(s.voters[v]);
      var s1 := AddProxied(s, proxy, weight);
      AddProxiedTally(s, proxy, weight, ext);
      AddProxiedOk(s, proxy, weight);
      AddProxiedPay(s, proxy, weight);
      AddedProxied(s, proxy, weight);
      ReceivedNonNegative(s, v, proxy);
      GoodProxyChain(s, v, proxy);
      PropagateKeeps(s1, proxy, AddExt(ext, proxy, weight));
      PropagatedMoved(s, proxy, weight, Propagate(s1, proxy).value, v);
    } else {
      NothingMoved(s, v);
    }
  }

  lemma GoodProxyIn(s: VoteState, v: Name, proxy: Name)
    requires GoodProxy(s, v, proxy)
    ensures proxy in s.voters && v != proxy
  {
  }

  lemma ReceivedNonNegative(s: VoteState, v: Name, p: Name)
    requires VotersOk(s) && v in s.voters && p in s.voters && Tally(s, Withdrawn(s.voters[v]))
    ensures s.voters[p].proxied >= 0
  {
    hide SumOf, Acyclic;
    RowOf(s, v);
    WeightWithinSums(s, v, p);
  }

  // ---------- casting a vote ----------

  /** Where the two propagations of a vote drop nothing. */
  ghost predicate CleanVote(s: VoteState, v: Name, proxy: Name)
    requires Acyclic(Edges(s.voters))
  {
    v in s.voters ==>
      var s0 := Activated(s, v);
      && CleanWithdrawal(s0, v)
      && (WithdrawWeight(s0, v).Ok? ==> CleanGrant(WithdrawWeight(s0, v).value, proxy, WeightOf(s, s.voters[v])))
  }

  /** The state a vote ends in, after the old weight was withdrawn and the new one granted. */
  function CastRow(voter: Voter, proxy: Name, producers: seq<Name>, weight: int): Voter {
    voter.(lastWeight := weight, producers := producers, proxy := proxy)
  }

  function Cast(s: VoteState, v: Name, proxy: Name, producers: seq<Name>, weight: int, voting: bool): Result<VoteState>
    requires v in s.voters
  {
    var (s3, tab) :- ApplyDeltas(s, Deltas(s.voters[v], proxy, producers, weight), voting, Tab(0, 0));
    var s4 := UpdateTotalShare(s3, -tab.inactive, tab.rate);
    Ok(s4.(voters := s4.voters[v := CastRow(s4.voters[v], proxy, producers, weight)]))
  }

  /** A vote taken apart: its checks, and its three stages. */
  lemma UpdateVotesStages(s: VoteState, v: Name, proxy: Name, producers: seq<Name>, voting: bool)
    requires Acyclic(Edges(s.voters)) && UpdateVotes(s, v, proxy, producers, voting).Ok?
    ensures v in s.voters && (proxy != NO_NAME ==> producers == [] && v != proxy && !s.voters[v].isProxy)
    ensures Ascending(producers) && WithdrawWeight(Activated(s, v), v).Ok?
    ensures var s1 := WithdrawWeight(Activated(s, v), v).value; var weight := WeightOf(s, s.voters[v]);
      && GrantWeight(s1, proxy, weight, voting).Ok?
      && (proxy != NO_NAME ==> proxy in s1.voters && (!voting || s1.voters[proxy].isProxy))
      && var s2 := GrantWeight(s1, proxy, weight, voting).value;
        v in s2.voters && (s2.voters[v] == s.voters[v] ==>
          Cast(s2, v, proxy, producers, weight, voting) == UpdateVotes(s, v, proxy, producers, voting))
  {
    hide Acyclic, WithdrawWeight, ApplyDeltas, Deltas, UpdateTotalShare, WeightOf, Propagate, AddProxied;
  }

  /** Casting or refreshing a vote keeps every tally and the vote pay exact: each proxy again holds
      the weight of its users, each producer the weight of its direct voters. */
  lemma UpdateVotesKeeps(s: VoteState, v: Name, proxy: Name, producers: seq<Name>, voting: bool)
    requires VoteInv(s) && CleanVote(s, v, proxy) && UpdateVotes(s, v, proxy, producers, voting).Ok?
    requires v in s.voters && !voting ==> proxy == s.voters[v].proxy
    ensures VoteInv(UpdateVotes(s, v, proxy, producers, voting).value)
  {
    hide SumOf, VotePay, Tally, Acyclic, VotersOk, WithdrawWeight, GrantWeight, Cast, UpdateVotes, Edges,
         CleanWithdrawal, CleanGrant, WeightOf, Moved;
    assert Acyclic(Edges(s.voters)) by { InvAcyclic(s); }
    UpdateVotesStages(s, v, proxy, producers, voting);
    var voter := s.voters[v];
    RowOf(s, v);
    var s0 := Activated(s, v);
    ActivatedSame(s, s0);
    var weight := WeightOf(s, voter);
    AllReceivedNonNegative(s, v);
    WeightNonNegative(s, voter);
    WithdrawKeeps(s0, v);
    var s1 := WithdrawWeight(s0, v).value;
    MovedRows(s0, s1, v);
    assert proxy != NO_NAME ==> GoodProxy(s1, v, proxy);
    GrantKeeps(s1, v, proxy, weight, voting);
    var s2 := GrantWeight(s1, proxy, weight, voting).value;
    MovedRows(s1, s2, v);
    if proxy != NO_NAME {
      GoodProxyChain(s1, v, proxy);
    }
    CastKeeps(s2, v, proxy, producers, weight, voting);
  }

  lemma InvAcyclic(s: VoteState)
    requires VoteInv(s)
    ensures Acyclic(Edges(s.voters))
  {
  }

  lemma ActivatedSame(s: VoteState, s0: VoteState)
    requires s0 == s.(totalActivated := s0.totalActivated)
    ensures VotersOk(s) ==> VotersOk(s0)
    ensures Tally(s, map[]) ==> Tally(s0, map[])
    ensures VotePay(s, Tab(0, 0)) ==> VotePay(s0, Tab(0, 0))
  {
    hide SumOf, Acyclic;
    if VotersOk(s) {
      VotersUnchanged(s, s0);
    }
  }

  lemma AllReceivedNonNegative(s: VoteState, v: Name)
    requires VotersOk(s) && v in s.voters && Tally(s, map[])
    ensures s.voters[v].proxied >= 0
  {
    hide SumOf, Acyclic;
    WeightWithinSums(s, v, v);
  }

  lemma MovedRows(s: VoteState, s1: VoteState, v: Name)
    requires Moved(s, s1, v) && v in s.voters
    ensures v in s1.voters && s1.voters[v] == s.voters[v] && s1.now == s.now && s1.voters.Keys == s.voters.Keys
    ensures forall u | u in s.voters :: s1.voters[u].isProxy == s.voters[u].isProxy
  {
  }

  /** The last stage: producers receive the difference, and the voter's row is replaced. */
  lemma CastKeeps(s: VoteState, v: Name, proxy: Name, producers: seq<Name>, weight: int, voting: bool)
    requires VotersOk(s) && VotePay(s, Tab(0, 0)) && s.now > 0 && v in s.voters && weight >= 0 && Ascending(producers)
    requires Tally(s, if proxy != NO_NAME then AddExt(Withdrawn(s.voters[v]), proxy, weight)
      else Withdrawn(s.voters[v]))
    requires proxy != NO_NAME ==> producers == [] && proxy in s.voters && proxy != v && !s.voters[v].isProxy
    requires proxy != NO_NAME && proxy != s.voters[v].proxy ==> proxy !in Edges(s.voters)
    requires Cast(s, v, proxy, producers, weight, voting).Ok?
    ensures VoteInv(Cast(s, v, proxy, producers, weight, voting).value)
  {
    hide SumOf, VotePay, Tally, Acyclic, VotersOk, ApplyDeltas, Deltas, UpdateTotalShare, Edges, SameProducers, LastTo,
         DirectTo;
    var voter := s.voters[v];
    RowOf(s, v);
    var deltas := Deltas(voter, proxy, producers, weight);
    DeltasMean(voter, proxy, producers, weight);
    assert ProducerTally(s) by {
      TallyProducers(s, if proxy != NO_NAME then AddExt(Withdrawn(voter), proxy, weight) else Withdrawn(voter));
    }
    VotesCoverDeltas(s, v, proxy, producers, weight);
    ApplyDeltasKeeps(s, deltas, voting, Tab(0, 0));
    var (s3, tab) := ApplyDeltas(s, deltas, voting, Tab(0, 0)).value;
    UpdateTotalShareKeeps(s3, tab);
    var s4 := UpdateTotalShare(s3, -tab.inactive, tab.rate);
    TotalsOnly(s3, tab);
    SameKeys(s, s3);
    var row := CastRow(voter, proxy, producers, weight);
    var s5 := s4.(voters := s4.voters[v := row]);
    CastVotersOk(s, s5, v, row);
    CastTally(s, s5, v, proxy, producers, weight, deltas);
    SameProducersPay(s4, s5);
  }

  lemma TallyProducers(s: VoteState, ext: map<Name, int>)
    requires Tally(s, ext)
    ensures ProducerTally(s)
  {
  }

  lemma SameProducersPay(s: VoteState, s1: VoteState)
    requires VotePay(s, Tab(0, 0)) && s1 == s.(voters := s1.voters)
    ensures VotePay(s1, Tab(0, 0))
  {
    hide SumOf;
  }

  /** No producer is charged more than it holds. */
  lemma VotesCoverDeltas(s: VoteState, v: Name, proxy: Name, producers: seq<Name>, weight: int)
    requires VotersOk(s) && v in s.voters && weight >= 0 && Ascending(producers) && ProducerTally(s)
    ensures forall q | q in s.producers && q in Deltas(s.voters[v], proxy, producers, weight) ::
      s.producers[q].votes + Deltas(s.voters[v], proxy, producers, weight)[q].amount >= 0
  {
    hide SumOf, Acyclic, LastTo, DirectTo, Deltas;
    var voter := s.voters[v];
    RowOf(s, v);
    var deltas := Deltas(voter, proxy, producers, weight);
    DeltasMean(voter, proxy, producers, weight);
    forall q | q in s.producers && q in deltas
      ensures s.producers[q].votes + deltas[q].amount >= 0
    {
      WeightWithinSums(s, v, q);
      SupportNonNegative(CastRow(voter, proxy, producers, weight), q);
      assert deltas[q].amount == Amount(deltas, q);
    }
  }

  lemma SupportNonNegative(row: Voter, q: Name)
    requires row.lastWeight >= 0
    ensures DirectTo(q)(row) >= 0
  {
  }

  lemma CastVotersOk(s: VoteState, s5: VoteState, v: Name, row: Voter)
    requires VotersOk(s) && v in s.voters && s5.voters == s.voters[v := row] && s5.producers.Keys == s.producers.Keys
    requires row.lastWeight >= 0 && Ascending(row.producers) && forall q | q in row.producers :: q in s.producers
    requires row.proxy != NO_NAME ==> row.producers == [] && row.proxy in s.voters && row.proxy != v && !row.isProxy
    requires row.proxy != NO_NAME && row.proxy != s.voters[v].proxy ==> row.proxy !in Edges(s.voters)
    ensures VotersOk(s5)
  {
    var edges := Edges(s.voters);
    if row.proxy == NO_NAME {
      FewerEdgesAcyclic(edges, Edges(s5.voters));
    } else {
      assert Edges(s5.voters) == edges[v := row.proxy];
      if row.proxy == s.voters[v].proxy {
        assert edges[v := row.proxy] == edges;
      } else {
        NewEdgeAcyclic(edges, v, row.proxy);
      }
    }
    forall u | u in s5.voters
      ensures VoterOk(s5.voters[u], u, s5.voters, s5.producers)
    {
      assert VoterOk(s.voters[u], u, s.voters, s.producers);
    }
  }

  lemma CastTally(s: VoteState, s5: VoteState, v: Name, proxy: Name, producers: seq<Name>, weight: int,
      deltas: map<Name, Delta>)
    requires VotersOk(s) && v in s.voters && weight >= 0
    requires Tally(s, if proxy != NO_NAME then AddExt(Withdrawn(s.voters[v]), proxy, weight)
      else Withdrawn(s.voters[v]))
    requires s5.voters == s.voters[v := CastRow(s.voters[v], proxy, producers, weight)]
    requires s5.producers.Keys == s.producers.Keys
    requires proxy != NO_NAME ==> producers == []
    requires forall q: Name ::
      Amount(deltas, q) == DirectTo(q)(CastRow(s.voters[v], proxy, producers, weight)) - DirectTo(q)(s.voters[v])
    requires forall q | q in s.producers :: s5.producers[q].votes == s.producers[q].votes + Amount(deltas, q)
    requires s5.totalWeight - SumOf(s5.producers, Votes) == s.totalWeight - SumOf(s.producers, Votes)
    ensures Tally(s5, map[])
  {
    hide SumOf, Acyclic, LastTo, DirectTo;
    var voter := s.voters[v];
    RowOf(s, v);
    var row := CastRow(voter, proxy, producers, weight);
    var ext := if proxy != NO_NAME then AddExt(Withdrawn(voter), proxy, weight) else Withdrawn(voter);
    forall p: Name
      ensures SumOf(s5.voters, LastTo(p)) == SumOf(s.voters, LastTo(p)) + Ext(ext, p)
      ensures SumOf(s5.voters, DirectTo(p)) == SumOf(s.voters, DirectTo(p)) + Amount(deltas, p)
    {
      SumStore(s.voters, LastTo(p), v, row);
      SumStore(s.voters, DirectTo(p), v, row);
      WithdrawnAndGranted(voter, proxy, producers, weight, p);
    }
  }

  lemma WithdrawnAndGranted(voter: Voter, proxy: Name, producers: seq<Name>, weight: int, p: Name)
    requires voter.lastWeight >= 0
    ensures var ext := if proxy != NO_NAME then AddExt(Withdrawn(voter), proxy, weight) else Withdrawn(voter);
      LastTo(p)(CastRow(voter, proxy, producers, weight)) - LastTo(p)(voter) == Ext(ext, p)
  {
  }

  // ---------- the other actions ----------

  /** A registration that is not new to the table cleans up like a propagation. */
  lemma RegisterProxyKeeps(s: VoteState, v: Name, isProxy: bool)
    requires VoteInv(s) && v != NO_NAME && RegisterProxy(s, v, isProxy).Ok?
    requires v in s.voters ==> CleanRegistration(s, v, isProxy)
    ensures VoteInv(RegisterProxy(s, v, isProxy).value)
  {
    hide SumOf, VotePay, Tally, Acyclic, VotersOk, Propagate, Clean, Propagated;
    assert Acyclic(Edges(s.voters)) by { InvAcyclic(s); }
    if v in s.voters {
      var s1 := Registered(s, v, isProxy);
      RegisteredOk(s, v, isProxy);
      AllReceivedNonNegative(s, v);
      PropagateKeeps(s1, v, map[]);
      PropagatedNow(s1, Propagate(s1, v).value, v);
    } else {
      NewVoterKeeps(s, v, 0, isProxy);
    }
  }

  function Registered(s: VoteState, v: Name, isProxy: bool): (s1: VoteState)
    requires v in s.voters
    ensures Edges(s1.voters) == Edges(s.voters)
  {
    s.(voters := s.voters[v := s.voters[v].(isProxy := isProxy)])
  }

  ghost predicate CleanRegistration(s: VoteState, v: Name, isProxy: bool)
    requires Acyclic(Edges(s.voters)) && v in s.voters
  {
    Clean(Registered(s, v, isProxy), v)
  }

  /** Whoever registers a proxy, unregisters one or changes a stake keeps its place in all sums. */
  lemma RowOnlyKeeps(s: VoteState, v: Name, row: Voter)
    requires VotersOk(s) && v in s.voters && Tally(s, map[]) && VotePay(s, Tab(0, 0))
    requires var was := s.voters[v];
      && row.proxy == was.proxy && row.producers == was.producers && row.lastWeight == was.lastWeight
          && row.proxied == was.proxied
      && (row.isProxy && row.proxy != NO_NAME ==> was.isProxy)
    ensures var s1 := s.(voters := s.voters[v := row]); VotersOk(s1) && Tally(s1, map[]) && VotePay(s1, Tab(0, 0))
  {
    hide SumOf, LastTo, DirectTo, Acyclic, VotersOk, ProxyTally, ProducerTally, Edges;
    RowOnlyVoters(s, v, row);
    RowOnlySums(s, v, row);
    SumsOnly(s, s.voters[v := row]);
  }

  lemma RowOnlyVoters(s: VoteState, v: Name, row: Voter)
    requires VotersOk(s) && v in s.voters
    requires var was := s.voters[v];
      row.proxy == was.proxy && row.producers == was.producers && row.lastWeight == was.lastWeight
      && (row.isProxy && row.proxy != NO_NAME ==> was.isProxy)
    ensures VotersOk(s.(voters := s.voters[v := row]))
  {
    hide Acyclic;
    var s1 := s.(voters := s.voters[v := row]);
    assert Edges(s1.voters) == Edges(s.voters);
    forall u | u in s1.voters
      ensures VoterOk(s1.voters[u], u, s1.voters, s1.producers)
    {
      assert VoterOk(s.voters[u], u, s.voters, s.producers);
    }
  }

  lemma RowOnlySums(s: VoteState, v: Name, row: Voter)
    requires v in s.voters
    requires var was := s.voters[v];
      row.proxy == was.proxy && row.producers == was.producers && row.lastWeight == was.lastWeight
    ensures forall p: Name :: SumOf(s.voters[v := row], LastTo(p)) == SumOf(s.voters, LastTo(p))
    ensures forall p: Name :: SumOf(s.voters[v := row], DirectTo(p)) == SumOf(s.voters, DirectTo(p))
  {
    hide SumOf, LastTo, DirectTo;
    VoterStored(s.voters, v, row);
    SameShares(s.voters[v], row);
  }

  /** Equal sums and equal received weights make equal tallies. */
  lemma SumsOnly(s: VoteState, voters: map<Name, Voter>)
    requires forall p: Name :: SumOf(voters, LastTo(p)) == SumOf(s.voters, LastTo(p))
    requires forall p: Name :: SumOf(voters, DirectTo(p)) == SumOf(s.voters, DirectTo(p))
    requires forall p | p in voters ::
      voters[p].proxied == if p in s.voters then s.voters[p].proxied else SumOf(s.voters, LastTo(p))
    ensures Tally(s, map[]) ==> Tally(s.(voters := voters), map[])
  {
    hide SumOf, LastTo, DirectTo;
  }

  lemma RegisteredOk(s: VoteState, v: Name, isProxy: bool)
    requires VotersOk(s) && v in s.voters && Tally(s, map[]) && VotePay(s, Tab(0, 0))
    requires isProxy ==> s.voters[v].proxy == NO_NAME
    ensures var s1 := Registered(s, v, isProxy); VotersOk(s1) && Tally(s1, map[]) && VotePay(s1, Tab(0, 0))
  {
    hide SumOf, LastTo, DirectTo, Acyclic, Tally, VotePay, VotersOk;
    RowOnlyKeeps(s, v, s.voters[v].(isProxy := isProxy));
  }

  lemma PropagatedNow(s: VoteState, s1: VoteState, v: Name)
    requires Acyclic(Edges(s.voters)) && Propagated(s, s1, v)
    ensures s1.now == s.now
  {
  }

  lemma NewVoterKeeps(s: VoteState, v: Name, staked: int, isProxy: bool)
    requires VoteInv(s) && v !in s.voters && v != NO_NAME
    ensures VoteInv(s.(voters := s.voters[v := Voter(v, NO_NAME, [], staked, 0, 0, isProxy)]))
  {
    hide SumOf, Acyclic, LastTo, DirectTo, VotersOk, ProxyTally, ProducerTally, Edges;
    var row := Voter(v, NO_NAME, [], staked, 0, 0, isProxy);
    NewVoterOk(s, v, row);
    NewVoterSums(s, v, row);
    NobodyUses(s, v);
    SumsOnly(s, s.voters[v := row]);
  }

  lemma NewVoterOk(s: VoteState, v: Name, row: Voter)
    requires VotersOk(s) && v !in s.voters && v != NO_NAME && row.proxy == NO_NAME && row.producers == []
    requires row.lastWeight == 0
    ensures VotersOk(s.(voters := s.voters[v := row]))
  {
    hide Acyclic;
    var s1 := s.(voters := s.voters[v := row]);
    assert Edges(s1.voters) == Edges(s.voters);
    forall u | u in s1.voters
      ensures VoterOk(s1.voters[u], u, s1.voters, s1.producers)
    {
      assert u != v ==> VoterOk(s.voters[u], u, s.voters, s.producers);
    }
  }

  lemma NewVoterSums(s: VoteState, v: Name, row: Voter)
    requires v !in s.voters && row.lastWeight == 0
    ensures forall p: Name :: SumOf(s.voters[v := row], LastTo(p)) == SumOf(s.voters, LastTo(p))
    ensures forall p: Name :: SumOf(s.voters[v := row], DirectTo(p)) == SumOf(s.voters, DirectTo(p))
  {
    hide SumOf;
    forall p: Name
      ensures SumOf(s.voters[v := row], LastTo(p)) == SumOf(s.voters, LastTo(p))
      ensures SumOf(s.voters[v := row], DirectTo(p)) == SumOf(s.voters, DirectTo(p))
    {
      SumStore(s.voters, LastTo(p), v, row);
      SumStore(s.voters, DirectTo(p), v, row);
    }
  }

  /** Nobody uses a proxy that has no row. */
  lemma NobodyUses(s: VoteState, v: Name)
    requires VotersOk(s) && v !in s.voters
    ensures SumOf(s.voters, LastTo(v)) == 0
  {
    hide SumOf, Acyclic;
    forall u | u in s.voters
      ensures LastTo(v)(s.voters[u]) == 0
    {
      assert VoterOk(s.voters[u], u, s.voters, s.producers);
    }
    AllZero(s.voters, LastTo(v));
  }

  lemma {:induction false} AllZero<K(!new), V>(m: map<K, V>, f: V -> int)
    requires forall k | k in m :: f(m[k]) == 0
    ensures SumOf(m, f) == 0
    decreases |m|
  {
    if m.Keys != {} {
      var k :| k in m.Keys;
      assert (m - {k}).Keys == m.Keys - {k};
      SumSplit(m, f, k);
      AllZero(m - {k}, f);
    } else {
      assert m == map[];
    }
  }

  /** The row a stake change works on. */
  function Staked(s: VoteState, v: Name, delta: int): (s1: VoteState)
    ensures Edges(s1.voters) == Edges(s.voters) && v in s1.voters
  {
    s.(voters := s.voters[v := if v in s.voters then s.voters[v].(staked := s.voters[v].staked + delta)
                               else Voter(v, NO_NAME, [], delta, 0, 0, false)])
  }

  ghost predicate CleanStakeChange(s: VoteState, v: Name, delta: int)
    requires Acyclic(Edges(s.voters))
  {
    var s1 := Staked(s, v, delta);
    |s1.voters[v].producers| > 0 || s1.voters[v].proxy != NO_NAME ==> CleanVote(s1, v, s1.voters[v].proxy)
  }

  lemma ChangeStakeKeeps(s: VoteState, v: Name, delta: int)
    requires VoteInv(s) && v != NO_NAME && CleanStakeChange(s, v, delta) && ChangeStake(s, v, delta).Ok?
    ensures VoteInv(ChangeStake(s, v, delta).value)
  {
    hide SumOf, VotePay, Tally, Acyclic, VotersOk, UpdateVotes, CleanVote, Edges;
    assert Acyclic(Edges(s.voters)) by { InvAcyclic(s); }
    var s1 := Staked(s, v, delta);
    StakedKeeps(s, v, delta);
    var voter := s1.voters[v];
    if |voter.producers| > 0 || voter.proxy != NO_NAME {
      UpdateVotesKeeps(s1, v, voter.proxy, voter.producers, false);
    }
  }

  lemma StakedKeeps(s: VoteState, v: Name, delta: int)
    requires VoteInv(s) && v != NO_NAME
    ensures VoteInv(Staked(s, v, delta))
  {
    hide SumOf, Tally, VotePay, VotersOk, Acyclic;
    if v in s.voters {
      RowOnlyKeeps(s, v, s.voters[v].(staked := s.voters[v].staked + delta));
    } else {
      NewVoterKeeps(s, v, delta, false);
    }
  }

  lemma SyncStakeKeeps(s: VoteState, v: Name, delta: int)
    requires VoteInv(s)
    ensures VoteInv(SyncStake(s, v, delta))
  {
    hide SumOf, Tally, VotePay, VotersOk, Acyclic;
    if v in s.voters {
      RowOnlyKeeps(s, v, s.voters[v].(staked := s.voters[v].staked + delta));
    }
  }

  /** Replacing or adding a producer row, and adjusting the global counters for it. */
  lemma ProducerRowPay(s: VoteState, name: Name, p: Producer, totalShare: int, shareRate: int)
    requires VotePay(s, Tab(0, 0)) && ProducerOk(p, s.now) && totalShare >= 0
    requires shareRate == s.shareRate + CountedVotes(p) - Part(s.producers, CountedVotes, name)
    requires totalShare + shareRate * (s.now - s.lastVpay)
          == s.totalShare + s.shareRate * (s.now - s.lastVpay) + SharesAt(s.now)(p)
              - Part(s.producers, SharesAt(s.now), name)
    ensures VotePay(s.(producers := s.producers[name := p], totalShare := totalShare, shareRate := shareRate),
      Tab(0, 0))
  {
    hide SumOf, CountedVotes, SharesAt, ProducerOk;
    SumStore(s.producers, CountedVotes, name, p);
    SumStore(s.producers, SharesAt(s.now), name, p);
  }

  /** The same, without touching the producer's votes. */
  lemma ProducerRowKeeps(s: VoteState, name: Name, p: Producer, totalShare: int, shareRate: int)
    requires VoteInv(s) && ProducerOk(p, s.now) && totalShare >= 0
    requires if name in s.producers then p.votes == s.producers[name].votes else p.votes == 0
    requires shareRate == s.shareRate + CountedVotes(p) - Part(s.producers, CountedVotes, name)
    requires totalShare + shareRate * (s.now - s.lastVpay)
          == s.totalShare + s.shareRate * (s.now - s.lastVpay) + SharesAt(s.now)(p)
              - Part(s.producers, SharesAt(s.now), name)
    ensures VoteInv(s.(producers := s.producers[name := p], totalShare := totalShare, shareRate := shareRate))
  {
    hide SumOf, Acyclic, LastTo, DirectTo, CountedVotes, SharesAt, ProducerOk, VotePay;
    var s1 := s.(producers := s.producers[name := p], totalShare := totalShare, shareRate := shareRate);
    ProducerRowPay(s, name, p, totalShare, shareRate);
    SumStore(s.producers, Votes, name, p);
    forall u | u in s1.voters
      ensures VoterOk(s1.voters[u], u, s1.voters, s1.producers)
    {
      assert VoterOk(s.voters[u], u, s.voters, s.producers);
    }
    if name !in s.producers {
      NobodyVotesFor(s, name);
    }
  }

  lemma NobodyVotesFor(s: VoteState, name: Name)
    requires VotersOk(s) && name !in s.producers
    ensures SumOf(s.voters, DirectTo(name)) == 0
  {
    hide SumOf, Acyclic;
    forall u | u in s.voters
      ensures DirectTo(name)(s.voters[u]) == 0
    {
      assert VoterOk(s.voters[u], u, s.voters, s.producers);
    }
    AllZero(s.voters, DirectTo(name));
  }

  /** A row that keeps its votes, share and times. */
  lemma SameRowPay(s: VoteState, name: Name, p: Producer)
    requires VotePay(s, Tab(0, 0)) && name in s.producers
    requires p.votes == s.producers[name].votes && p.share == s.producers[name].share
    requires p.lastClaim == s.producers[name].lastClaim && p.lastUpdate == s.producers[name].lastUpdate
    ensures VotePay(s.(producers := s.producers[name := p]), Tab(0, 0))
    ensures ProducerOk(p, s.now) && CountedVotes(p) == CountedVotes(s.producers[name])
    ensures SharesAt(s.now)(p) == SharesAt(s.now)(s.producers[name])
  {
    hide SumOf;
    ProducerRowPay(s, name, p, s.totalShare, s.shareRate);
  }

  lemma RegisterProducerPay(s: VoteState, name: Name)
    requires VotePay(s, Tab(0, 0)) && s.now > 0
    ensures VotePay(RegisterProducer(s, name), Tab(0, 0))
  {
    hide SumOf;
    if name in s.producers {
      SameRowPay(s, name, s.producers[name].(isActive := true));
    } else {
      ProducerRowPay(s, name, Producer(0, true, 0, s.now, 0, s.now), s.totalShare, s.shareRate);
    }
  }

  lemma RegisterProducerKeeps(s: VoteState, name: Name)
    requires VoteInv(s)
    ensures VoteInv(RegisterProducer(s, name))
  {
    hide SumOf, Acyclic, Tally, VotersOk;
    if name in s.producers {
      ProducerRowKeeps(s, name, s.producers[name].(isActive := true), s.totalShare, s.shareRate);
    } else {
      ProducerRowKeeps(s, name, Producer(0, true, 0, s.now, 0, s.now), s.totalShare, s.shareRate);
    }
  }

  lemma UnregisterProducerKeeps(s: VoteState, name: Name)
    requires VoteInv(s) && name in s.producers
    ensures VoteInv(UnregisterProducer(s, name).value)
  {
    hide SumOf, Acyclic, Tally, VotersOk;
    ProducerRowKeeps(s, name, s.producers[name].(isActive := false), s.totalShare, s.shareRate);
  }

  /** The accounting is in step with the clock. */
  lemma TimePay(s: VoteState, micros: nat)
    requires VotePay(s, Tab(0, 0))
    ensures VotePay(s.(now := s.now + micros), Tab(0, 0))
  {
    hide SumOf;
    var later := s.now + micros;
    SharesGrow(s.producers, s.now, later);
    Distribute(s.now - s.lastVpay, micros, s.shareRate);
    assert s.shareRate * (later - s.lastVpay) == s.shareRate * (s.now - s.lastVpay) + s.shareRate * micros;
  }

  lemma TimePasses(s: VoteState, micros: nat)
    requires VoteInv(s)
    ensures VoteInv(s.(now := s.now + micros))
  {
    hide SumOf, Acyclic, LastTo, DirectTo, VotePay;
    TimePay(s, micros);
    VotersUnchanged(s, s.(now := s.now + micros));
  }

  // ---------- columns that voting leaves alone, whatever the weights ----------

  lemma SameProducersTransitive(s: VoteState, s1: VoteState, s2: VoteState)
    requires SameProducers(s, s1) && SameProducers(s1, s2)
    ensures SameProducers(s, s2)
  {
  }

  /** A step on voters and global counters. */
  lemma ProducersUntouched(s: VoteState, s1: VoteState)
    requires s1.producers == s.producers
    ensures SameProducers(s, s1)
  {
  }

  lemma TotalsProducers(s: VoteState, share: int, rate: int)
    ensures UpdateTotalShare(s, share, rate).producers == s.producers
  {
  }

  lemma {:induction false} SpreadProducers(s: VoteState, names: seq<Name>, d: int, tab: Tab)
    requires Spread(s, names, d, tab).Ok?
    ensures SameProducers(s, Spread(s, names, d, tab).value.0)
  {
    hide ChangeVotes, SameProducers;
    if names == [] {
      ProducersUntouched(s, s);
    } else {
      var (s1, tab1) := Spread(s, names[..|names| - 1], d, tab).value;
      var name := names[|names| - 1];
      SpreadProducers(s, names[..|names| - 1], d, tab);
      ChangeVotesRow(s1, name, s1.producers[name].votes + d, d, tab1);
      SameProducersTransitive(s, s1, ChangeVotes(s1, name, s1.producers[name].votes + d, d, tab1).0);
    }
  }

  lemma {:induction false} PropagateProducers(s: VoteState, v: Name)
    requires Acyclic(Edges(s.voters)) && v in s.voters && Propagate(s, v).Ok?
    ensures SameProducers(s, Propagate(s, v).value)
    decreases Height(Edges(s.voters), v)
  {
    hide Acyclic, WeightOf, Spread, UpdateTotalShare, SameProducers, Propagate, Height, Edges, Noticeable;
    var voter := s.voters[v];
    var w := WeightOf(s, voter);
    var d := w - voter.lastWeight;
    if !Noticeable(d) {
      PropagateDropped(s, v, w, d);
      ProducersUntouched(s, Propagate(s, v).value);
    } else if voter.proxy != NO_NAME {
      PropagatePassed(s, v, w, d);
      ProxyHigher(s, v);
      var s1 := AddProxied(s, voter.proxy, d);
      PropagateProducers(s1, voter.proxy);
      ProducersUntouched(s, s1);
      SameProducersTransitive(s, s1, Propagate(s1, voter.proxy).value);
      ProducersUntouched(Propagate(s1, voter.proxy).value, Propagate(s, v).value);
      SameProducersTransitive(s, Propagate(s1, voter.proxy).value, Propagate(s, v).value);
    } else {
      PropagateSpread(s, v, w, d);
      SpreadProducers(s, voter.producers, d, Tab(0, 0));
      var (s1, tab) := Spread(s, voter.producers, d, Tab(0, 0)).value;
      TotalsProducers(s1, -tab.inactive, tab.rate);
      ProducersUntouched(s1, Propagate(s, v).value);
      SameProducersTransitive(s, s1, Propagate(s, v).value);
    }
  }

  lemma WithdrawProducers(s: VoteState, v: Name)
    requires Acyclic(Edges(s.voters)) && v in s.voters && WithdrawWeight(s, v).Ok?
    ensures SameProducers(s, WithdrawWeight(s, v).value)
  {
    hide Acyclic, Propagate;
    var voter := s.voters[v];
    if voter.lastWeight > 0 && voter.proxy != NO_NAME {
      PropagateProducers(AddProxied(s, voter.proxy, -voter.lastWeight), voter.proxy);
    }
  }

  lemma GrantProducers(s: VoteState, proxy: Name, weight: int, voting: bool)
    requires Acyclic(Edges(s.voters)) && GrantWeight(s, proxy, weight, voting).Ok?
    ensures SameProducers(s, GrantWeight(s, proxy, weight, voting).value)
  {
    hide Acyclic, Propagate;
    if proxy != NO_NAME && weight >= 0 {
      PropagateProducers(AddProxied(s, proxy, weight), proxy);
    }
  }

  lemma {:induction false} ApplyDeltasProducers(s: VoteState, deltas: map<Name, Delta>, voting: bool, tab: Tab)
    requires ApplyDeltas(s, deltas, voting, tab).Ok?
    ensures SameProducers(s, ApplyDeltas(s, deltas, voting, tab).value.0)
    decreases |deltas.Keys|
  {
    hide UpdateShare;
    if deltas.Keys != {} {
      var name := Least(deltas.Keys, n => 0);
      assert (deltas - {name}).Keys == deltas.Keys - {name};
      if name in s.producers {
        var (s1, tab1) := ChangeVotes(s, name, Max(0, s.producers[name].votes + deltas[name].amount),
          deltas[name].amount, tab);
        ChangeVotesRow(s, name, Max(0, s.producers[name].votes + deltas[name].amount), deltas[name].amount, tab);
        ApplyDeltasProducers(s1, deltas - {name}, voting, tab1);
      } else {
        ApplyDeltasProducers(s, deltas - {name}, voting, tab);
      }
    }
  }

  /** A vote changes producers' votes, shares and update times only. */
  lemma UpdateVotesProducers(s: VoteState, v: Name, proxy: Name, producers: seq<Name>, voting: bool)
    requires Acyclic(Edges(s.voters)) && UpdateVotes(s, v, proxy, producers, voting).Ok?
    ensures SameProducers(s, UpdateVotes(s, v, proxy, producers, voting).value)
  {
    hide Acyclic, WithdrawWeight, GrantWeight, ApplyDeltas, Deltas, UpdateTotalShare, WeightOf, SameProducers, Edges;
    var s0 := Activated(s, v);
    var weight := WeightOf(s, s.voters[v]);
    ProducersUntouched(s, s0);
    WithdrawProducers(s0, v);
    var s1 := WithdrawWeight(s0, v).value;
    SameProducersTransitive(s, s0, s1);
    GrantProducers(s1, proxy, weight, voting);
    var s2 := GrantWeight(s1, proxy, weight, voting).value;
    SameProducersTransitive(s, s1, s2);
    var deltas := Deltas(s.voters[v], proxy, producers, weight);
    ApplyDeltasProducers(s2, deltas, voting, Tab(0, 0));
    var (s3, tab) := ApplyDeltas(s2, deltas, voting, Tab(0, 0)).value;
    SameProducersTransitive(s, s2, s3);
    TotalsProducers(s3, -tab.inactive, tab.rate);
    ProducersUntouched(s3, UpdateVotes(s, v, proxy, producers, voting).value);
    SameProducersTransitive(s, s3, UpdateVotes(s, v, proxy, producers, voting).value);
  }

  lemma RegisterProxyProducers(s: VoteState, v: Name, isProxy: bool)
    requires Acyclic(Edges(s.voters)) && RegisterProxy(s, v, isProxy).Ok?
    ensures SameProducers(s, RegisterProxy(s, v, isProxy).value)
  {
    hide Acyclic, Propagate;
    if v in s.voters {
      PropagateProducers(Registered(s, v, isProxy), v);
    }
  }

  lemma ChangeStakeProducers(s: VoteState, v: Name, delta: int)
    requires Acyclic(Edges(s.voters)) && ChangeStake(s, v, delta).Ok?
    ensures SameProducers(s, ChangeStake(s, v, delta).value)
  {
    hide Acyclic, UpdateVotes, Edges;
    var s1 := Staked(s, v, delta);
    var row := s1.voters[v];
    if |row.producers| > 0 || row.proxy != NO_NAME {
      UpdateVotesProducers(s1, v, row.proxy, row.producers, false);
    }
  }
}
