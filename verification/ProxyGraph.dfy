/** The proxy graph in every run whatsoever: no admissibility, no exactness of weights is assumed. */
module ProxyGraph {
  import opened Tables
  import opened Voting
  import opened VotingInvariant
  import opened VotingProofs
  import opened ProducerPay

  /** Proxies exist, nobody uses itself, registered proxies use nobody, and no chain returns;
      lists of producers are in ascending order. */
  ghost predicate Proxies(voters: map<Name, Voter>) {
    && Acyclic(Edges(voters))
    && (forall v | v in voters :: Ascending(voters[v].producers))
    && (forall v | v in voters && voters[v].proxy != NO_NAME ::
          voters[v].proxy in voters && voters[v].proxy != v && !voters[v].isProxy && voters[v].producers == [])
  }

  /** Every listed producer is registered. */
  predicate Listed(s: VoteState) {
    forall v | v in s.voters :: forall q | q in s.voters[v].producers :: q in s.producers
  }

  /** Rows that differ at most in weights. */
  ghost predicate SameShape(a: map<Name, Voter>, b: map<Name, Voter>) {
    b.Keys == a.Keys && forall u | u in a :: b[u] == a[u].(lastWeight := b[u].lastWeight, proxied := b[u].proxied)
  }

  lemma ShapeKeepsProxies(a: map<Name, Voter>, b: map<Name, Voter>)
    requires SameShape(a, b) && Proxies(a)
    ensures Proxies(b) && Edges(a) == Edges(b)
  {
    hide Acyclic;
    assert Edges(a) == Edges(b);
  }

  lemma ProxiesAcyclic(voters: map<Name, Voter>)
    requires Proxies(voters)
    ensures Acyclic(Edges(voters))
  {
  }

  // ---------- propagation ----------

  lemma AddProxiedShape(s: VoteState, q: Name, d: int)
    requires q in s.voters
    ensures SameShape(s.voters, AddProxied(s, q, d).voters)
  {
  }

  lemma SetWeightShape(voters: map<Name, Voter>, s: VoteState, v: Name, w: int)
    requires v in s.voters && SameShape(voters, s.voters)
    ensures SameShape(voters, SetWeight(s, v, w).voters)
  {
  }

  lemma SameShapeReflexive(voters: map<Name, Voter>)
    ensures SameShape(voters, voters)
  {
  }

  lemma {:induction false} PropagateShape(s: VoteState, v: Name)
    requires Acyclic(Edges(s.voters)) && v in s.voters && Propagate(s, v).Ok?
    ensures SameShape(s.voters, Propagate(s, v).value.voters)
    decreases Height(Edges(s.voters), v)
  {
    hide Acyclic, WeightOf, Spread, UpdateTotalShare, Propagate, Height, Edges, Noticeable, SameShape, AddProxied,
         SetWeight;
    var voter := s.voters[v];
    var w := WeightOf(s, voter);
    var d := w - voter.lastWeight;
    SameShapeReflexive(s.voters);
    if !Noticeable(d) {
      PropagateDropped(s, v, w, d);
      SetWeightShape(s.voters, s, v, WeightOf(s, voter));
    } else if voter.proxy != NO_NAME {
      PropagatePassed(s, v, w, d);
      ProxyHigher(s, v);
      var s1 := AddProxied(s, voter.proxy, d);
      AddProxiedShape(s, voter.proxy, d);
      PropagateShape(s1, voter.proxy);
      ShapeTransitive(s.voters, s1.voters, Propagate(s1, voter.proxy).value.voters);
      SetWeightShape(s.voters, Propagate(s1, voter.proxy).value, v, WeightOf(s, voter));
    } else {
      PropagateSpread(s, v, w, d);
      var (s1, tab) := Spread(s, voter.producers, d, Tab(0, 0)).value;
      TotalsKeepVoters(s1, -tab.inactive, tab.rate);
      SetWeightShape(s.voters, UpdateTotalShare(s1, -tab.inactive, tab.rate), v, WeightOf(s, voter));
    }
  }

  lemma TotalsKeepVoters(s: VoteState, share: int, rate: int)
    ensures UpdateTotalShare(s, share, rate).voters == s.voters
    ensures UpdateTotalShare(s, share, rate).producers == s.producers
  {
  }

  /** The checks of a propagation on the proxy graph never fail: it ends in an abort only at a
      voter that lists a producer without a row. */
  lemma {:induction false} PropagateSucceeds(s: VoteState, v: Name)
    requires Proxies(s.voters) && Acyclic(Edges(s.voters)) && v in s.voters && Listed(s)
    ensures Propagate(s, v).Ok?
    decreases Height(Edges(s.voters), v)
  {
    hide Acyclic, WeightOf, Spread, UpdateTotalShare, Propagate, Height, Edges, Noticeable, Proxies, AddProxied, Listed;
    var voter := s.voters[v];
    var w := WeightOf(s, voter);
    var d := w - voter.lastWeight;
    if voter.proxy != NO_NAME {
      ProxyRow(s.voters, v);
    }
    if Noticeable(d) && voter.proxy != NO_NAME {
      ProxyHigher(s, v);
      var s1 := AddProxied(s, voter.proxy, d);
      AddProxiedShape(s, voter.proxy, d);
      ShapeKeepsProxies(s.voters, s1.voters);
      AddProxiedOnly(s, voter.proxy, d);
      ShapeKeepsLists(s, s1);
      PropagateSucceeds(s1, voter.proxy);
      PropagateStep(s, v, w);
    } else if Noticeable(d) {
      assert forall q | q in voter.producers :: q in s.producers by { ListedRow(s, v); }
      SpreadSucceeds(s, voter.producers, d, Tab(0, 0));
      PropagateEnds(s, v, w);
    } else {
      PropagateDrops(s, v, w, d);
    }
  }

  lemma ProxyRow(voters: map<Name, Voter>, v: Name)
    requires Proxies(voters) && v in voters && voters[v].proxy != NO_NAME
    ensures voters[v].proxy in voters && !voters[v].isProxy
  {
  }

  lemma ListedRow(s: VoteState, v: Name)
    requires Listed(s) && v in s.voters
    ensures forall q | q in s.voters[v].producers :: q in s.producers
  {
  }

  lemma ShapeKeepsLists(s: VoteState, s1: VoteState)
    requires Listed(s) && SameShape(s.voters, s1.voters) && s1 == s.(voters := s1.voters)
    ensures Listed(s1)
  {
  }

  lemma PropagateDrops(s: VoteState, v: Name, w: int, d: int)
    requires Acyclic(Edges(s.voters)) && Finds(s, v, w, d) && (s.voters[v].proxy == NO_NAME || !s.voters[v].isProxy)
    requires !Noticeable(d)
    ensures Propagate(s, v).Ok?
  {
    hide Acyclic, WeightOf, Edges, SetWeight;
  }

  lemma AddProxiedOnly(s: VoteState, q: Name, d: int)
    requires q in s.voters
    ensures AddProxied(s, q, d) == s.(voters := AddProxied(s, q, d).voters)
  {
  }

  lemma {:induction false} SpreadSucceeds(s: VoteState, names: seq<Name>, d: int, tab: Tab)
    requires forall q | q in names :: q in s.producers
    ensures Spread(s, names, d, tab).Ok? && Spread(s, names, d, tab).value.0.producers.Keys == s.producers.Keys
  {
    hide UpdateShare;
    if names != [] {
      assert names == names[..|names| - 1] + [names[|names| - 1]];
      SpreadSucceeds(s, names[..|names| - 1], d, tab);
    }
  }

  // ---------- voting ----------

  lemma WithdrawShape(s: VoteState, v: Name)
    requires Acyclic(Edges(s.voters)) && v in s.voters && WithdrawWeight(s, v).Ok?
    ensures SameShape(s.voters, WithdrawWeight(s, v).value.voters)
  {
    hide Acyclic, Propagate;
    var voter := s.voters[v];
    if voter.lastWeight > 0 && voter.proxy != NO_NAME {
      PropagateShape(AddProxied(s, voter.proxy, -voter.lastWeight), voter.proxy);
    }
  }

  lemma GrantShape(s: VoteState, proxy: Name, weight: int, voting: bool)
    requires Acyclic(Edges(s.voters)) && GrantWeight(s, proxy, weight, voting).Ok?
    ensures SameShape(s.voters, GrantWeight(s, proxy, weight, voting).value.voters)
    ensures proxy != NO_NAME ==> proxy in s.voters && (voting ==> s.voters[proxy].isProxy)
  {
    hide Acyclic, Propagate;
    if proxy != NO_NAME && weight >= 0 {
      PropagateShape(AddProxied(s, proxy, weight), proxy);
    }
  }

  lemma ShapeTransitive(a: map<Name, Voter>, b: map<Name, Voter>, c: map<Name, Voter>)
    requires SameShape(a, b) && SameShape(b, c)
    ensures SameShape(a, c)
  {
  }

  /** The voter's row after its weight moved, with its new proxy and list. */
  lemma RecastProxies(a: map<Name, Voter>, b: map<Name, Voter>, v: Name, row: Voter)
    requires Proxies(a) && SameShape(a, b) && v in a && row.isProxy == a[v].isProxy && Ascending(row.producers)
    requires row.proxy != NO_NAME ==>
      row.proxy in a && row.proxy != v && !row.isProxy && row.producers == []
        && (row.proxy == a[v].proxy || a[row.proxy].isProxy)
    ensures Proxies(b[v := row])
  {
    hide Acyclic;
    var c := b[v := row];
    if row.proxy == NO_NAME {
      FewerEdgesAcyclic(Edges(a), Edges(c));
    } else if row.proxy == a[v].proxy {
      assert Edges(c) == Edges(a);
    } else {
      NewEdgeAcyclic(Edges(a), v, row.proxy);
      assert Edges(c) == Edges(a)[v := row.proxy];
    }
  }

  /** A vote, or the refresh of one, leaves the proxy graph in order. */
  lemma UpdateVotesProxies(s: VoteState, v: Name, proxy: Name, producers: seq<Name>, voting: bool)
    requires Proxies(s.voters) && Acyclic(Edges(s.voters)) && UpdateVotes(s, v, proxy, producers, voting).Ok?
    requires v in s.voters && !voting ==> proxy == s.voters[v].proxy
    ensures Proxies(UpdateVotes(s, v, proxy, producers, voting).value.voters)
  {
    hide Acyclic, WithdrawWeight, GrantWeight, ApplyDeltas, Deltas, UpdateTotalShare, WeightOf, Proxies, SameShape,
         Edges;
    var voter := s.voters[v];
    var s0 := Activated(s, v);
    var weight := WeightOf(s, voter);
    WithdrawShape(s0, v);
    var s1 := WithdrawWeight(s0, v).value;
    GrantShape(s1, proxy, weight, voting);
    var s2 := GrantWeight(s1, proxy, weight, voting).value;
    var (s3, tab) := ApplyDeltas(s2, Deltas(voter, proxy, producers, weight), voting, Tab(0, 0)).value;
    TotalsKeepVoters(s3, -tab.inactive, tab.rate);
    ShapeTransitive(s.voters, s1.voters, s2.voters);
    ShapeKinds(s.voters, s1.voters);
    ShapeKinds(s.voters, s2.voters);
    RecastProxies(s.voters, s2.voters, v, s2.voters[v].(lastWeight := weight, producers := producers, proxy := proxy));
  }

  lemma ShapeKinds(a: map<Name, Voter>, b: map<Name, Voter>)
    requires SameShape(a, b)
    ensures b.Keys == a.Keys && forall u | u in a :: b[u].isProxy == a[u].isProxy
  {
  }

  /** Replacing or adding a row that keeps its proxy. */
  lemma RowProxies(voters: map<Name, Voter>, v: Name, row: Voter)
    requires Proxies(voters)
    requires if v in voters then row.proxy == voters[v].proxy && row.producers == voters[v].producers
             else row.proxy == NO_NAME && row.producers == []
    requires row.proxy != NO_NAME ==> !row.isProxy
    ensures Proxies(voters[v := row]) && Edges(voters[v := row]) == Edges(voters)
  {
    hide Acyclic;
    assert Edges(voters[v := row]) == Edges(voters);
  }

  lemma RegisterProxyProxies(s: VoteState, v: Name, isProxy: bool)
    requires Proxies(s.voters) && Acyclic(Edges(s.voters)) && RegisterProxy(s, v, isProxy).Ok?
    ensures Proxies(RegisterProxy(s, v, isProxy).value.voters)
  {
    hide Acyclic, Proxies, Propagate, SameShape;
    if v in s.voters {
      var row := s.voters[v].(isProxy := isProxy);
      var s1 := s.(voters := s.voters[v := row]);
      if row.proxy != NO_NAME {
        ProxyUsers(s.voters, v);
      }
      RowProxies(s.voters, v, row);
      PropagateShape(s1, v);
      ShapeKeepsProxies(s1.voters, Propagate(s1, v).value.voters);
    } else {
      RowProxies(s.voters, v, Voter(v, NO_NAME, [], 0, 0, 0, isProxy));
    }
  }

  lemma ProxyUsers(voters: map<Name, Voter>, v: Name)
    requires Proxies(voters) && v in voters && voters[v].proxy != NO_NAME
    ensures !voters[v].isProxy
  {
  }

  lemma ChangeStakeProxies(s: VoteState, v: Name, delta: int)
    requires Proxies(s.voters) && Acyclic(Edges(s.voters)) && ChangeStake(s, v, delta).Ok?
    ensures Proxies(ChangeStake(s, v, delta).value.voters)
  {
    hide Acyclic, Proxies, UpdateVotes, Edges;
    var voter := if v in s.voters then s.voters[v].(staked := s.voters[v].staked + delta)
                 else Voter(v, NO_NAME, [], delta, 0, 0, false);
    var s1 := s.(voters := s.voters[v := voter]);
    if v in s.voters && voter.proxy != NO_NAME {
      ProxyUsers(s.voters, v);
    }
    RowProxies(s.voters, v, voter);
    if |voter.producers| > 0 || voter.proxy != NO_NAME {
      UpdateVotesProxies(s1, v, voter.proxy, voter.producers, false);
    }
  }

  // ---------- every action, every run ----------

  lemma ExecProxies(s: PayState, a: Action)
    requires Proxies(s.votes.voters) && Acyclic(Edges(s.votes.voters)) && Exec(s, a).Ok?
    ensures Proxies(Exec(s, a).value.votes.voters)
  {
    hide Acyclic, Proxies, UpdateVotes, RegisterProxy, ChangeStake, FillBuckets, PayOut, Edges;
    match a
    case Vote(voter, proxy, names) => UpdateVotesProxies(s.votes, voter, proxy, names, true);
    case RegProxy(voter, isProxy) => RegisterProxyProxies(s.votes, voter, isProxy);
    case Stake(voter, delta) => ChangeStakeProxies(s.votes, voter, delta);
    case SyncRexStake(voter, delta) =>
      if voter in s.votes.voters {
        var row := s.votes.voters[voter].(staked := s.votes.voters[voter].staked + delta);
        if row.proxy != NO_NAME {
          ProxyUsers(s.votes.voters, voter);
        }
        RowProxies(s.votes.voters, voter, row);
      }
    case Claim(producer) => ClaimKeepsVoters(s, producer);
    case _ =>
  }

  lemma ClaimKeepsVoters(s: PayState, owner: Name)
    requires ClaimRewards(s, owner).Ok?
    ensures ClaimRewards(s, owner).value.votes.voters == s.votes.voters
  {
    hide UpdateTotalShare, UpdateShare, NewTokens, BlockPay, VotePayment;
    var s1 := FillBuckets(s).value;
    TotalsKeepVoters(s1.votes, 0, 0);
    var p := s1.votes.producers[owner];
    var updatedAfter := p.lastClaim + THREE_DAYS <= p.lastUpdate;
    var share := UpdateShare(p, s1.votes.now, if updatedAfter then 0 else p.votes, true).1;
    var v1 := if s1.revision > 0 then UpdateTotalShare(s1.votes, 0, 0) else s1.votes;
    TotalsKeepVoters(v1, -share, if updatedAfter then p.votes else 0);
  }

  /** An action, or nothing if it aborts. */
  ghost function Step(s: PayState, a: Action): (r: PayState)
    requires Proxies(s.votes.voters)
    ensures Proxies(r.votes.voters)
  {
    ProxiesAcyclic(s.votes.voters);
    match Exec(s, a)
    case Ok(r) => ExecProxies(s, a); r
    case Abort => s
  }

  /** Any sequence of actions leaves a proxy graph on which the next one is defined. */
  ghost function Run(s: PayState, actions: seq<Action>): (r: PayState)
    requires Proxies(s.votes.voters)
    ensures Proxies(r.votes.voters)
  {
    if actions == [] then s else Step(Run(s, actions[..|actions| - 1]), actions[|actions| - 1])
  }
}
