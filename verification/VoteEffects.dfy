/** What votes, registrations and stake changes do to the rows of voters, in numbers, and which stake
    counts as activated. */
module VoteEffects {
  import opened Basics
  import opened Tables
  import opened Voting
  import opened VotingInvariant
  import opened VotingProofs
  import opened VoteCast
  import opened ProducerPay
  import opened ProxyGraph
  import opened Drift

  // ---------- rows that weights pass through ----------

  /** The row holds the weight of the present moment: that of its stake, and what it received if it is a
      registered proxy. */
  ghost predicate Weighed(s: VoteState, row: Voter) {
    row.lastWeight == s.weigh(row.staked, s.now) + (if row.isProxy then row.proxied else 0)
  }

  predicate Used(voters: map<Name, Voter>, u: Name) {
    exists w | w in voters :: voters[w].proxy == u
  }

  /** From `b` on, weights moved: outside `open`, every row is as it was, or it is `top` or a proxy in
      use and holds the weight of the present moment. */
  ghost predicate Reweighed(b: VoteState, s: VoteState, top: Name, open: set<Name>) {
    && s == b.(voters := s.voters, producers := s.producers, totalWeight := s.totalWeight,
               totalShare := s.totalShare, shareRate := s.shareRate, lastVpay := s.lastVpay)
    && SameShape(b.voters, s.voters)
    && (forall u | u in b.voters && u !in open ::
          s.voters[u] == b.voters[u] || ((u == top || Used(b.voters, u)) && Weighed(b, s.voters[u])))
  }

  lemma WeightReceived(b: VoteState, s: VoteState, top: Name, open: set<Name>, q: Name, d: int)
    requires Reweighed(b, s, top, open) && q in s.voters
    ensures Reweighed(b, AddProxied(s, q, d), top, open + {q})
  {
    hide Used, Weighed;
  }

  lemma WeightStored(b: VoteState, s: VoteState, top: Name, open: set<Name>, v: Name, w: int)
    requires Reweighed(b, s, top, open) && v in s.voters && (v == top || Used(b.voters, v))
    requires w == WeightOf(s, s.voters[v])
    ensures Reweighed(b, SetWeight(s, v, w), top, open - {v})
  {
    hide Used;
  }

  lemma Narrower(b: VoteState, s: VoteState, top: Name, open: set<Name>, wider: set<Name>)
    requires Reweighed(b, s, top, open) && open <= wider
    ensures Reweighed(b, s, top, wider)
  {
    hide Used, Weighed, SameShape;
  }

  lemma Totalled(b: VoteState, s: VoteState, s1: VoteState, top: Name, open: set<Name>)
    requires Reweighed(b, s, top, open)
    requires s1 == s.(producers := s1.producers, totalWeight := s1.totalWeight, totalShare := s1.totalShare,
                      shareRate := s1.shareRate, lastVpay := s1.lastVpay)
    ensures Reweighed(b, s1, top, open)
  {
    hide Used, Weighed, SameShape;
  }

  lemma UsedBy(b: map<Name, Voter>, voters: map<Name, Voter>, v: Name)
    requires SameShape(b, voters) && v in voters
    ensures Used(b, voters[v].proxy)
  {
    assert b[v].proxy == voters[v].proxy;
  }

  lemma {:induction false} PropagateReweighs(b: VoteState, s: VoteState, v: Name, top: Name, open: set<Name>)
    requires Acyclic(Edges(s.voters)) && v in s.voters && Propagate(s, v).Ok?
    requires Reweighed(b, s, top, open + {v}) && (v == top || Used(b.voters, v))
    ensures Reweighed(b, Propagate(s, v).value, top, open - {v})
    decreases Height(Edges(s.voters), v)
  {
    hide Acyclic, WeightOf, Spread, UpdateTotalShare, Propagate, Height, Edges, Noticeable, AddProxied, SetWeight,
         Used, Reweighed;
    var voter := s.voters[v];
    var w := WeightOf(s, voter);
    var d := w - voter.lastWeight;
    if !Noticeable(d) {
      PropagateDropped(s, v, w, d);
      WeightStored(b, s, top, open + {v}, v, w);
      Narrower(b, SetWeight(s, v, w), top, open + {v} - {v}, open - {v});
    } else if voter.proxy != NO_NAME {
      PropagatePassed(s, v, w, d);
      ProxyHigher(s, v);
      var q := voter.proxy;
      var s1 := AddProxied(s, q, d);
      WeightReceived(b, s, top, open + {v}, q, d);
      assert Used(b.voters, q) by { ReweighedShape(b, s, top, open + {v}); UsedBy(b.voters, s.voters, v); }
      PropagateReweighs(b, s1, q, top, open + {v});
      var s2 := Propagate(s1, q).value;
      UserUntouched(s, v, d);
      assert w == WeightOf(s2, s2.voters[v]) by { SameWeight(b, s, s2, top, open + {v}, open + {v} - {q}, v); }
      WeightStored(b, s2, top, open + {v} - {q}, v, w);
      Narrower(b, SetWeight(s2, v, w), top, open + {v} - {q} - {v}, open - {v});
    } else {
      PropagateSpread(s, v, w, d);
      var (s1, tab) := Spread(s, voter.producers, d, Tab(0, 0)).value;
      var s2 := UpdateTotalShare(s1, -tab.inactive, tab.rate);
      TotalsFrame(s1, -tab.inactive, tab.rate);
      Totalled(b, s, s2, top, open + {v});
      assert w == WeightOf(s2, s2.voters[v]) by { SameWeight(b, s, s2, top, open + {v}, open + {v}, v); }
      WeightStored(b, s2, top, open + {v}, v, w);
      Narrower(b, SetWeight(s2, v, w), top, open + {v} - {v}, open - {v});
    }
  }

  lemma ReweighedShape(b: VoteState, s: VoteState, top: Name, open: set<Name>)
    requires Reweighed(b, s, top, open)
    ensures SameShape(b.voters, s.voters)
  {
  }

  lemma SameWeight(b: VoteState, s: VoteState, s1: VoteState, top: Name, open: set<Name>, open1: set<Name>, v: Name)
    requires Reweighed(b, s, top, open) && Reweighed(b, s1, top, open1)
    requires v in s.voters && v in s1.voters && s1.voters[v] == s.voters[v]
    ensures WeightOf(s1, s1.voters[v]) == WeightOf(s, s.voters[v])
  {
    hide Used, SameShape;
  }

  lemma TotalsFrame(s: VoteState, share: int, rate: int)
    ensures var s1 := UpdateTotalShare(s, share, rate);
      s1 == s.(totalShare := s1.totalShare, shareRate := s1.shareRate, lastVpay := s1.lastVpay)
  {
  }

  // ---------- votes ----------

  lemma WithdrawReweighs(s: VoteState, v: Name, top: Name)
    requires Acyclic(Edges(s.voters)) && v in s.voters && WithdrawWeight(s, v).Ok?
    ensures Reweighed(s, WithdrawWeight(s, v).value, top, {}) && WithdrawWeight(s, v).value.voters[v] == s.voters[v]
  {
    hide Acyclic, Propagate, AddProxied, Edges, Reweighed;
    Unmoved(s, top);
    var voter := s.voters[v];
    if voter.lastWeight > 0 && voter.proxy != NO_NAME {
      var q, d := voter.proxy, -voter.lastWeight;
      WeightReceived(s, s, top, {}, q, d);
      assert {} + {q} == {q};
      assert {} - {q} == {};
      PropagateReweighs(s, AddProxied(s, q, d), q, top, {});
      UserUntouched(s, v, d);
    }
  }

  lemma Unmoved(s: VoteState, top: Name)
    ensures Reweighed(s, s, top, {})
  {
  }

  lemma GrantReweighs(b: VoteState, s: VoteState, v: Name, proxy: Name, weight: int, voting: bool)
    requires Acyclic(Edges(s.voters)) && Proxies(s.voters) && v in s.voters && Reweighed(b, s, proxy, {})
    requires GrantWeight(s, proxy, weight, voting).Ok?
    requires proxy != NO_NAME ==> proxy != v && (voting || proxy == s.voters[v].proxy)
    ensures var s1 := GrantWeight(s, proxy, weight, voting).value;
      Reweighed(b, s1, proxy, {}) && s1.voters[v] == s.voters[v]
  {
    hide Acyclic, Propagate, Edges, Reweighed, Proxies, OnChain;
    if proxy != NO_NAME && weight >= 0 {
      var s1 := AddProxied(s, proxy, weight);
      WeightReceived(b, s, proxy, {}, proxy, weight);
      assert {} + {proxy} == {proxy};
      assert {} - {proxy} == {};
      PropagateReweighs(b, s1, proxy, proxy, {});
      PropagateFrame(s1, proxy);
      NotOnGrant(s, v, proxy);
    }
  }

  /** Other rows than `v`'s are as they were, or weights passed through them: they hold the weight of the
      present moment, and only what they received may have changed besides. */
  ghost predicate OtherRows(s: VoteState, s1: VoteState, v: Name, top: Name) {
    && s1.now == s.now && s1.weigh == s.weigh && s1.voters.Keys == s.voters.Keys + {v}
    && (forall u | u in s.voters && u != v ::
          || s1.voters[u] == s.voters[u]
          || (&& (u == top || Used(s.voters, u)) && Weighed(s, s1.voters[u])
              && s1.voters[u] == s.voters[u].(lastWeight := s1.voters[u].lastWeight, proxied := s1.voters[u].proxied)))
  }

  /** A vote, or the refresh of one: its checks, the row it leaves, the stake it activates, and that it
      only passes through proxies otherwise. */
  lemma VoteMoves(s: VoteState, v: Name, proxy: Name, producers: seq<Name>, voting: bool)
    requires Acyclic(Edges(s.voters)) && Proxies(s.voters) && UpdateVotes(s, v, proxy, producers, voting).Ok?
    requires v in s.voters && !voting ==> proxy == s.voters[v].proxy
    ensures v in s.voters
    ensures if proxy != NO_NAME then
        && producers == [] && v != proxy && proxy in s.voters && !s.voters[v].isProxy
        && (voting ==> s.voters[proxy].isProxy)
      else |producers| <= 30 && forall i, j | 0 <= i < j < |producers| :: producers[i] < producers[j]
    ensures var s1 := UpdateVotes(s, v, proxy, producers, voting).value; var row := s.voters[v];
      && s1.voters[v] == row.(proxy := proxy, producers := producers,
           lastWeight := s.weigh(row.staked, s.now) + (if row.isProxy then row.proxied else 0))
      && s1.totalActivated == s.totalActivated + (if row.lastWeight > 0 then 0 else row.staked)
      && OtherRows(s, s1, v, proxy)
  {
    hide Acyclic, Edges, WithdrawWeight, GrantWeight, ApplyDeltas, Deltas, UpdateVotes, Cast, Proxies, SameShape,
         Ascending, Reweighed, OtherRows;
    UpdateVotesStages(s, v, proxy, producers, voting);
    VoteChecks(s, v, proxy, producers, voting);
    var s0 := Activated(s, v);
    WithdrawReweighs(s0, v, proxy);
    WithdrawShape(s0, v);
    var s1 := WithdrawWeight(s0, v).value;
    ShapeKeepsProxies(s0.voters, s1.voters);
    ShapeKinds(s0.voters, s1.voters);
    var weight := WeightOf(s, s.voters[v]);
    GrantReweighs(s0, s1, v, proxy, weight, voting);
    var s2 := GrantWeight(s1, proxy, weight, voting).value;
    CastFrame(s2, v, proxy, producers, weight, voting);
    VoteRows(s, s0, s2, UpdateVotes(s, v, proxy, producers, voting).value, v, proxy);
  }

  lemma VoteRows(s: VoteState, s0: VoteState, s2: VoteState, s5: VoteState, v: Name, proxy: Name)
    requires s0 == s.(totalActivated := s0.totalActivated) && Reweighed(s0, s2, proxy, {}) && v in s.voters
    requires s5 == s2.(voters := s5.voters, producers := s5.producers, totalWeight := s5.totalWeight,
                       totalShare := s5.totalShare, shareRate := s5.shareRate, lastVpay := s5.lastVpay)
    requires v in s5.voters && s5.voters == s2.voters[v := s5.voters[v]]
    ensures OtherRows(s, s5, v, proxy) && s5.totalActivated == s0.totalActivated
  {
    hide Used;
  }

  lemma CastFrame(s: VoteState, v: Name, proxy: Name, producers: seq<Name>, weight: int, voting: bool)
    requires v in s.voters && Cast(s, v, proxy, producers, weight, voting).Ok?
    ensures var s1 := Cast(s, v, proxy, producers, weight, voting).value;
      && s1 == s.(voters := s1.voters, producers := s1.producers, totalWeight := s1.totalWeight,
                  totalShare := s1.totalShare, shareRate := s1.shareRate, lastVpay := s1.lastVpay)
      && s1.voters == s.voters[v := CastRow(s.voters[v], proxy, producers, weight)]
  {
    hide ApplyDeltas, Deltas, UpdateTotalShare;
    var (s3, tab) := ApplyDeltas(s, Deltas(s.voters[v], proxy, producers, weight), voting, Tab(0, 0)).value;
    TotalsFrame(s3, -tab.inactive, tab.rate);
  }

  lemma VoteChecks(s: VoteState, v: Name, proxy: Name, producers: seq<Name>, voting: bool)
    requires Acyclic(Edges(s.voters)) && UpdateVotes(s, v, proxy, producers, voting).Ok?
    ensures proxy == NO_NAME ==>
      |producers| <= 30 && forall i, j | 0 <= i < j < |producers| :: producers[i] < producers[j]
  {
    hide Acyclic, Recast, Edges;
    if proxy == NO_NAME {
      forall i, j | 0 <= i < j < |producers|
        ensures producers[i] < producers[j]
      {
        AscendingSteps(producers, i, j);
      }
    }
  }

  /** Whom a vote may list: registered producers, and active ones unless it is only refreshed. */
  lemma ListedCandidates(s: VoteState, v: Name, producers: seq<Name>, voting: bool)
    requires Acyclic(Edges(s.voters)) && UpdateVotes(s, v, NO_NAME, producers, voting).Ok? && v in s.voters
    requires s.weigh(s.voters[v].staked, s.now) + (if s.voters[v].isProxy then s.voters[v].proxied else 0) >= 0
    ensures forall q | q in producers :: q in s.producers && (voting ==> s.producers[q].isActive)
  {
    hide Acyclic, Edges, WithdrawWeight, ApplyDeltas, Deltas, Ascending, SameProducers, AddProxied, Propagate,
         UpdateTotalShare;
    UpdateVotesStages(s, v, NO_NAME, producers, voting);
    var s0 := Activated(s, v);
    var voter, weight := s.voters[v], WeightOf(s, s.voters[v]);
    WithdrawProducers(s0, v);
    var s1 := WithdrawWeight(s0, v).value;
    var deltas := Deltas(voter, NO_NAME, producers, weight);
    NewlyListed(voter, producers, weight);
    LoopChecks(s1, deltas, voting, Tab(0, 0));
    CandidatesKept(s0, s1);
  }

  lemma NewlyListed(voter: Voter, producers: seq<Name>, weight: int)
    requires Ascending(producers) && weight >= 0
    ensures var d := Deltas(voter, NO_NAME, producers, weight); forall q | q in producers :: q in d && d[q].isNew
  {
    var taken := if voter.lastWeight > 0 && voter.proxy == NO_NAME
                 then AddDeltas(map[], voter.producers, -voter.lastWeight, false) else map[];
    AddDeltasMean(taken, producers, weight, true);
  }

  lemma CandidatesKept(s: VoteState, s1: VoteState)
    requires SameProducers(s, s1)
    ensures s1.producers.Keys == s.producers.Keys
    ensures forall q | q in s.producers :: s1.producers[q].isActive == s.producers[q].isActive
  {
  }

  /** The loop of a vote refuses whoever is newly listed without being registered, or active. */
  lemma {:induction false} LoopChecks(s: VoteState, deltas: map<Name, Delta>, voting: bool, tab: Tab)
    requires ApplyDeltas(s, deltas, voting, tab).Ok?
    ensures forall q | q in deltas && deltas[q].isNew :: q in s.producers && (voting ==> s.producers[q].isActive)
    decreases |deltas.Keys|
  {
    hide UpdateShare;
    if deltas.Keys != {} {
      var name := Least(deltas.Keys, n => 0);
      var delta := deltas[name];
      assert (deltas - {name}).Keys == deltas.Keys - {name};
      if name in s.producers {
        var (s1, tab1) := ChangeVotes(s, name, Max(0, s.producers[name].votes + delta.amount), delta.amount, tab);
        ChangeVotesRow(s, name, Max(0, s.producers[name].votes + delta.amount), delta.amount, tab);
        LoopChecks(s1, deltas - {name}, voting, tab1);
      } else {
        LoopChecks(s, deltas - {name}, voting, tab);
      }
    }
  }

  // ---------- registrations and stakes ----------

  /** `regproxy`: the row changes its kind and holds the weight that then is its own; what was cast for it
      or received stays, and nothing is activated. A new row has neither stake nor weight. */
  lemma RegProxyMoves(s: VoteState, v: Name, isProxy: bool)
    requires Acyclic(Edges(s.voters)) && RegisterProxy(s, v, isProxy).Ok?
    ensures v in s.voters ==> isProxy != s.voters[v].isProxy && (isProxy ==> s.voters[v].proxy == NO_NAME)
    ensures var s1 := RegisterProxy(s, v, isProxy).value;
      && s1.totalActivated == s.totalActivated && OtherRows(s, s1, v, v)
      && (v in s.voters ==>
            var row := s.voters[v];
            s1.voters[v] == row.(isProxy := isProxy,
              lastWeight := s.weigh(row.staked, s.now) + (if isProxy then row.proxied else 0)))
      && (v !in s.voters ==> s1.voters[v] == Voter(v, NO_NAME, [], 0, 0, 0, isProxy))
  {
    hide Acyclic, Propagate, Edges;
    if v in s.voters {
      var s1 := Registered(s, v, isProxy);
      Unmoved(s1, v);
      Narrower(s1, s1, v, {}, {} + {v});
      PropagateReweighs(s1, s1, v, v, {});
      assert {} - {v} == {};
      RegisteredRows(s, v, isProxy, Propagate(s1, v).value);
      OwnRow(s1, v);
    }
  }

  lemma RegisteredRows(s: VoteState, v: Name, isProxy: bool, s2: VoteState)
    requires v in s.voters && isProxy != s.voters[v].isProxy && Reweighed(Registered(s, v, isProxy), s2, v, {})
    ensures OtherRows(s, s2, v, v) && s2.totalActivated == s.totalActivated
  {
  }

  /** A propagation starts by storing the weight of the row it starts at. */
  lemma OwnRow(s: VoteState, v: Name)
    requires Acyclic(Edges(s.voters)) && v in s.voters && Propagate(s, v).Ok?
    ensures var row := s.voters[v];
      Propagate(s, v).value.voters[v]
        == row.(lastWeight := s.weigh(row.staked, s.now) + (if row.isProxy then row.proxied else 0))
  {
    hide Acyclic, Spread, UpdateTotalShare, Propagate, Height, Edges, Noticeable, AddProxied;
    var voter := s.voters[v];
    var w := WeightOf(s, voter);
    var d := w - voter.lastWeight;
    if !Noticeable(d) {
      PropagateDropped(s, v, w, d);
    } else if voter.proxy != NO_NAME {
      PropagatePassed(s, v, w, d);
      UserUntouched(s, v, d);
    } else {
      PropagateSpread(s, v, w, d);
      var (s1, tab) := Spread(s, voter.producers, d, Tab(0, 0)).value;
      TotalsKeepVoters(s1, -tab.inactive, tab.rate);
    }
  }

  /** The voter has cast a vote, for producers or through a proxy. */
  predicate HasVote(row: Voter) {
    row.producers != [] || row.proxy != NO_NAME
  }

  /** A change of stake is refused if it leaves less than nothing. Otherwise the row holds the new stake, a
      vote that was cast has its weight at once, and a stake that never weighed anything is activated
      with it. A new row has that stake alone. */
  lemma StakeVoteMoves(s: VoteState, v: Name, delta: int)
    requires Acyclic(Edges(s.voters)) && Proxies(s.voters) && ChangeStake(s, v, delta).Ok?
    ensures var s1 := ChangeStake(s, v, delta).value;
      && v in s1.voters && s1.voters[v].staked >= 0
      && OtherRows(s, s1, v, s1.voters[v].proxy)
      && (v in s.voters ==>
            var row := s.voters[v];
            && s1.voters[v] == row.(staked := row.staked + delta,
                 lastWeight :=
                   if HasVote(row) then s.weigh(row.staked + delta, s.now) + (if row.isProxy then row.proxied else 0)
                   else row.lastWeight)
            && s1.totalActivated
                 == s.totalActivated + (if HasVote(row) && row.lastWeight <= 0 then row.staked + delta else 0))
      && (v !in s.voters ==>
            s1.voters[v] == Voter(v, NO_NAME, [], delta, 0, 0, false) && s1.totalActivated == s.totalActivated)
  {
    hide Acyclic, UpdateVotes, Proxies, Edges;
    var s1 := Staked(s, v, delta);
    var row := s1.voters[v];
    if v in s.voters && row.proxy != NO_NAME {
      ProxyUsers(s.voters, v);
    }
    RowProxies(s.voters, v, row);
    if HasVote(row) {
      VoteMoves(s1, v, row.proxy, row.producers, false);
      StakedRows(s, v, delta, UpdateVotes(s1, v, row.proxy, row.producers, false).value);
    }
  }

  lemma StakedRows(s: VoteState, v: Name, delta: int, s2: VoteState)
    requires v in s.voters && OtherRows(Staked(s, v, delta), s2, v, s.voters[v].proxy)
    ensures OtherRows(s, s2, v, s.voters[v].proxy)
  {
    var s1 := Staked(s, v, delta);
    forall u | Used(s1.voters, u)
      ensures Used(s.voters, u)
    {
      var w :| w in s1.voters && s1.voters[w].proxy == u;
      assert s.voters[w].proxy == u;
    }
  }

  // ---------- activation ----------

  /** The stake an action activates: that of a voter whose last weight is not positive, as it votes or as
      its vote is refreshed. */
  function Activation(v: VoteState, a: Action): int {
    match a
    case Vote(voter, _, _) =>
      if voter in v.voters && v.voters[voter].lastWeight <= 0 then v.voters[voter].staked else 0
    case Stake(voter, delta) =>
      if voter in v.voters && HasVote(v.voters[voter]) && v.voters[voter].lastWeight <= 0
      then v.voters[voter].staked + delta else 0
    case _ => 0
  }

  /** Nothing else ever activates stake, and nothing deactivates any. */
  lemma ExecActivates(s: PayState, a: Action)
    requires Acyclic(Edges(s.votes.voters)) && Proxies(s.votes.voters) && Exec(s, a).Ok?
    ensures Exec(s, a).value.votes.totalActivated == s.votes.totalActivated + Activation(s.votes, a)
  {
    hide Acyclic, Edges, Proxies, UpdateVotes, RegisterProxy, ChangeStake, ClaimRewards, OtherRows;
    match a
    case Vote(voter, proxy, names) => VoteMoves(s.votes, voter, proxy, names, true);
    case RegProxy(voter, isProxy) => RegProxyMoves(s.votes, voter, isProxy);
    case Stake(voter, delta) => StakeVoteMoves(s.votes, voter, delta);
    case Claim(producer) => ClaimActivates(s, producer);
    case _ =>
  }

  lemma ClaimActivates(s: PayState, owner: Name)
    requires ClaimRewards(s, owner).Ok?
    ensures ClaimRewards(s, owner).value.votes.totalActivated == s.votes.totalActivated
  {
    hide UpdateTotalShare, UpdateShare, NewTokens, BlockPay, VotePayment;
    var s1 := FillBuckets(s).value;
    TotalsFrame(s1.votes, 0, 0);
    var p := s1.votes.producers[owner];
    var updatedAfter := p.lastClaim + THREE_DAYS <= p.lastUpdate;
    var share := UpdateShare(p, s1.votes.now, if updatedAfter then 0 else p.votes, true).1;
    var v1 := if s1.revision > 0 then UpdateTotalShare(s1.votes, 0, 0) else s1.votes;
    TotalsFrame(v1, -share, if updatedAfter then p.votes else 0);
  }

  // ---------- producers ----------

  /** `regproducer` and `unregprod` decide whether a producer is active, and nothing about votes, shares
      or blocks; a first registration is counted as a claim, so that pay starts a day later. */
  lemma RegistrationMoves(s: PayState, n: Name)
    requires Acyclic(Edges(s.votes.voters))
    ensures var r := Exec(s, RegProducer(n)); var p := s.votes.producers;
      && r.Ok? && n in r.value.votes.producers
      && r.value == s.(votes := s.votes.(producers := p[n := r.value.votes.producers[n]]))
      && var row := r.value.votes.producers[n];
        && row.isActive
        && (n in p ==>
              row == p[n].(isActive := true, lastClaim := row.lastClaim)
              && row.lastClaim == (if p[n].lastClaim > 0 then p[n].lastClaim else s.votes.now))
        && (n !in p ==> row == Producer(0, true, 0, s.votes.now, 0, s.votes.now))
    ensures var r := Exec(s, UnregProducer(n)); var p := s.votes.producers;
      if n in p then
        r.Ok? && r.value == s.(votes := s.votes.(producers := p[n := p[n].(isActive := false)]))
      else r.Abort?
  {
  }
}
