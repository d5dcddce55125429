/** Propagating and casting votes: termination, exact tallies, exact vote pay. */
module VotingProofs {
  import opened Basics
  import opened Tables
  import opened Voting
  import opened VotingInvariant

  // ---------- what a propagation may leave out ----------

  /** No change along the chain is dropped: propagation ignores changes of at most one unit, which
      is harmless exactly when the change is zero or the voter has neither proxy nor producers. */
  ghost predicate Clean(s: VoteState, v: Name)
    requires Acyclic(Edges(s.voters)) && v in s.voters
    decreases Height(Edges(s.voters), v)
  {
    var voter := s.voters[v];
    var d := WeightOf(s, voter) - voter.lastWeight;
    if Noticeable(d) then
      voter.proxy != NO_NAME && voter.proxy in s.voters ==>
        (HeightFalls(Edges(s.voters), v); Clean(AddProxied(s, voter.proxy, d), voter.proxy))
    else d == 0 || (voter.proxy == NO_NAME && voter.producers == [])
  }

  // ---------- single updates ----------

  function AddExt(ext: map<Name, int>, p: Name, d: int): map<Name, int> {
    ext[p := Ext(ext, p) + d]
  }

  lemma AddProxiedTally(s: VoteState, p: Name, d: int, ext: map<Name, int>)
    requires p in s.voters && Tally(s, ext)
    ensures Tally(AddProxied(s, p, d), AddExt(ext, p, d))
  {
    hide SumOf, LastTo, DirectTo;
    var row := s.voters[p].(proxied := s.voters[p].proxied + d);
    VoterStored(s.voters, p, row);
    assert forall q: Name :: LastTo(q)(row) == LastTo(q)(s.voters[p]) by { SameShares(s.voters[p], row); }
    assert forall q: Name :: DirectTo(q)(row) == DirectTo(q)(s.voters[p]) by { SameShares(s.voters[p], row); }
  }

  lemma SameShares(a: Voter, b: Voter)
    requires a.proxy == b.proxy && a.producers == b.producers && a.lastWeight == b.lastWeight
    ensures forall q: Name :: LastTo(q)(b) == LastTo(q)(a)
    ensures forall q: Name :: DirectTo(q)(b) == DirectTo(q)(a)
  {
  }

  lemma AddProxiedOk(s: VoteState, p: Name, d: int)
    requires VotersOk(s) && p in s.voters
    ensures VotersOk(AddProxied(s, p, d))
  {
    hide Acyclic;
    var s1 := AddProxied(s, p, d);
    forall v | v in s1.voters
      ensures VoterOk(s1.voters[v], v, s1.voters, s1.producers)
    {
      assert VoterOk(s.voters[v], v, s.voters, s.producers);
    }
  }

  lemma SetWeightOk(s: VoteState, v: Name, w: int)
    requires VotersOk(s) && v in s.voters && w >= 0
    ensures VotersOk(SetWeight(s, v, w))
  {
    hide Acyclic;
    var s1 := SetWeight(s, v, w);
    forall u | u in s1.voters
      ensures VoterOk(s1.voters[u], u, s1.voters, s1.producers)
    {
      assert VoterOk(s.voters[u], u, s.voters, s.producers);
    }
  }

  /** Recording a new weight settles what the voter's proxy received for it. */
  lemma SetWeightTally(s: VoteState, v: Name, w: int, ext: map<Name, int>)
    requires v in s.voters && s.voters[v].proxy != NO_NAME && s.voters[v].proxy in s.voters
    ensures Tally(SetWeight(s, v, w), ext) <==> Tally(s, AddExt(ext, s.voters[v].proxy, w - s.voters[v].lastWeight))
  {
    hide SumOf, LastTo, DirectTo, ProxyTally, ProducerTally;
    SetWeightProxyTally(s, v, w, ext);
    SetWeightProducerTally(s, v, w);
    SameVotersTally(s, AddExt(ext, s.voters[v].proxy, w - s.voters[v].lastWeight));
  }

  lemma SameVotersTally(s: VoteState, ext: map<Name, int>)
    ensures Tally(s, ext) <==> ProxyTally(s.voters, ext) && ProducerTally(s)
  {
  }

  lemma SetWeightProxyTally(s: VoteState, v: Name, w: int, ext: map<Name, int>)
    requires v in s.voters && s.voters[v].proxy != NO_NAME && s.voters[v].proxy in s.voters
    ensures ProxyTally(SetWeight(s, v, w).voters, ext)
            <==> ProxyTally(s.voters, AddExt(ext, s.voters[v].proxy, w - s.voters[v].lastWeight))
  {
    hide SumOf, LastTo, DirectTo, AddExt, Ext;
    var voter := s.voters[v];
    var row := voter.(lastWeight := w);
    var ext1 := AddExt(ext, voter.proxy, w - voter.lastWeight);
    var voters1 := SetWeight(s, v, w).voters;
    forall p | p in s.voters
      ensures voters1[p].proxied == s.voters[p].proxied
      ensures SumOf(voters1, LastTo(p)) + Ext(ext, p) == SumOf(s.voters, LastTo(p)) + Ext(ext1, p)
    {
      SumStore(s.voters, LastTo(p), v, row);
      ProxyUserShares(voter, w, p);
      AddedExt(ext, voter.proxy, w - voter.lastWeight, p);
    }
  }

  lemma AddedExt(ext: map<Name, int>, q: Name, d: int, p: Name)
    ensures Ext(AddExt(ext, q, d), p) == Ext(ext, p) + (if p == q then d else 0)
  {
  }

  lemma SetWeightProducerTally(s: VoteState, v: Name, w: int)
    requires v in s.voters && s.voters[v].proxy != NO_NAME
    ensures ProducerTally(SetWeight(s, v, w)) <==> ProducerTally(s)
  {
    hide SumOf, LastTo, DirectTo;
    var voters1 := SetWeight(s, v, w).voters;
    forall q: Name
      ensures SumOf(voters1, DirectTo(q)) == SumOf(s.voters, DirectTo(q))
    {
      SumStore(s.voters, DirectTo(q), v, s.voters[v].(lastWeight := w));
      ProxyUserShares(s.voters[v], w, q);
    }
  }

  lemma ProxyUserShares(voter: Voter, w: int, p: Name)
    requires voter.proxy != NO_NAME
    ensures var row := voter.(lastWeight := w);
      && LastTo(p)(row) - LastTo(p)(voter) == (if p == voter.proxy then w - voter.lastWeight else 0)
      && DirectTo(p)(row) == DirectTo(p)(voter)
  {
  }

  /** Recording a new weight after the voter's producers received the difference. */
  lemma SetWeightSpreadTally(s: VoteState, s1: VoteState, v: Name, w: int, ext: map<Name, int>)
    requires v in s.voters && s.voters[v].proxy == NO_NAME && Tally(s, ext)
    requires s1.voters == s.voters && s1.producers.Keys == s.producers.Keys
    requires s1.totalWeight - SumOf(s1.producers, Votes) == s.totalWeight - SumOf(s.producers, Votes)
    requires forall q | q in s.producers ::
      s1.producers[q].votes == s.producers[q].votes
        + (if q in s.voters[v].producers then w - s.voters[v].lastWeight else 0)
    ensures Tally(SetWeight(s1, v, w), ext)
  {
    hide SumOf;
    VoterStored(s.voters, v, s.voters[v].(lastWeight := w));
  }

  /** A dropped change breaks the tally, unless it is zero or the voter supports nobody. */
  lemma DroppedTally(s: VoteState, v: Name, w: int, ext: map<Name, int>)
    requires VotersOk(s) && v in s.voters && Tally(s, ext)
    ensures Tally(SetWeight(s, v, w), ext)
            <==> w == s.voters[v].lastWeight || (s.voters[v].proxy == NO_NAME && s.voters[v].producers == [])
  {
    hide SumOf, Acyclic, LastTo, DirectTo;
    var voter := s.voters[v];
    var row := voter.(lastWeight := w);
    assert VoterOk(voter, v, s.voters, s.producers);
    var voters1 := s.voters[v := row];
    if w != voter.lastWeight {
      if voter.proxy != NO_NAME {
        SumStore(s.voters, LastTo(voter.proxy), v, row);
        ShareOfRow(row, voter.proxy);
        ShareOfRow(voter, voter.proxy);
        assert voters1[voter.proxy].proxied == s.voters[voter.proxy].proxied;
      } else if voter.producers != [] {
        var q := voter.producers[0];
        assert q in voter.producers && q in s.producers;
        SumStore(s.voters, DirectTo(q), v, row);
        ShareOfRow(row, q);
        ShareOfRow(voter, q);
      } else {
        NoSupport(s, v, w, ext);
      }
    } else {
      assert voters1 == s.voters;
    }
  }

  lemma ShareOfRow(row: Voter, p: Name)
    ensures p != NO_NAME && row.proxy == p ==> LastTo(p)(row) == row.lastWeight
    ensures row.proxy == NO_NAME && p in row.producers ==> DirectTo(p)(row) == row.lastWeight
  {
  }

  lemma NoSupport(s: VoteState, v: Name, w: int, ext: map<Name, int>)
    requires v in s.voters && s.voters[v].proxy == NO_NAME && s.voters[v].producers == [] && Tally(s, ext)
    ensures Tally(SetWeight(s, v, w), ext)
  {
    hide SumOf;
    VoterStored(s.voters, v, s.voters[v].(lastWeight := w));
  }

  // ---------- one step of a propagation ----------

  /** What a propagation finds at `v`: its current weight `w`, and the change to pass on. */
  ghost predicate Finds(s: VoteState, v: Name, w: int, d: int) {
    v in s.voters && w == WeightOf(s, s.voters[v]) && d == w - s.voters[v].lastWeight
  }

  /** A propagation that succeeded dropped the change, passed it up, or spread it. */
  lemma PropagateDropped(s: VoteState, v: Name, w: int, d: int)
    requires Acyclic(Edges(s.voters)) && Finds(s, v, w, d) && Propagate(s, v).Ok? && !Noticeable(d)
    ensures Propagate(s, v) == Ok(SetWeight(s, v, w))
  {
    hide Acyclic, SetWeight, WeightOf, Edges, Spread, UpdateTotalShare;
  }

  lemma PropagatePassed(s: VoteState, v: Name, w: int, d: int)
    requires Acyclic(Edges(s.voters)) && Finds(s, v, w, d) && Propagate(s, v).Ok? && Noticeable(d)
    requires s.voters[v].proxy != NO_NAME
    ensures s.voters[v].proxy in s.voters
    ensures var r := Propagate(AddProxied(s, s.voters[v].proxy, d), s.voters[v].proxy);
      r.Ok? && Propagate(s, v) == Ok(SetWeight(r.value, v, w))
  {
    hide Acyclic, AddProxied, SetWeight, WeightOf, Noticeable, Edges, Propagate;
    if StepsUp(s, v, w) {
      PropagateBlocked(s, v, w);
      PropagateStep(s, v, w);
    } else {
      PropagateRefused(s, v, w);
    }
  }

  lemma PropagateBlocked(s: VoteState, v: Name, w: int)
    requires Acyclic(Edges(s.voters)) && StepsUp(s, v, w)
    ensures var q := s.voters[v].proxy;
      Propagate(AddProxied(s, q, w - s.voters[v].lastWeight), q).Abort? ==> Propagate(s, v).Abort?
  {
    hide Acyclic, AddProxied, SetWeight, WeightOf, Noticeable, Edges;
  }

  lemma PropagateRefused(s: VoteState, v: Name, w: int)
    requires Acyclic(Edges(s.voters)) && v in s.voters && w == WeightOf(s, s.voters[v])
    requires s.voters[v].proxy != NO_NAME && Noticeable(w - s.voters[v].lastWeight) && !StepsUp(s, v, w)
    ensures Propagate(s, v).Abort?
  {
    hide Acyclic, AddProxied, SetWeight, WeightOf, Noticeable, Edges;
  }

  lemma PropagateSpread(s: VoteState, v: Name, w: int, d: int)
    requires Acyclic(Edges(s.voters)) && Finds(s, v, w, d) && Propagate(s, v).Ok? && Noticeable(d)
    requires s.voters[v].proxy == NO_NAME
    ensures Spread(s, s.voters[v].producers, d, Tab(0, 0)).Ok?
    ensures var (s1, tab) := Spread(s, s.voters[v].producers, d, Tab(0, 0)).value;
      Propagate(s, v) == Ok(SetWeight(UpdateTotalShare(s1, -tab.inactive, tab.rate), v, w))
  {
    hide Acyclic, AddProxied, SetWeight, WeightOf, Noticeable, Edges, Spread, UpdateTotalShare;
  }

  /** A proxy is higher than its user. */
  lemma ProxyHigher(s: VoteState, v: Name)
    requires Acyclic(Edges(s.voters)) && v in s.voters && s.voters[v].proxy != NO_NAME
    ensures Height(Edges(s.voters), s.voters[v].proxy) < Height(Edges(s.voters), v)
  {
    HeightFalls(Edges(s.voters), v);
  }

  // ---------- propagation ----------

  /** Rows that a propagation from `v` cannot have touched, and columns it never touches. */
  ghost predicate Propagated(s: VoteState, s1: VoteState, v: Name)
    requires Acyclic(Edges(s.voters))
  {
    && s1.voters.Keys == s.voters.Keys && SameProducers(s, s1)
    && s1 == s.(voters := s1.voters, producers := s1.producers, totalWeight := s1.totalWeight,
                totalShare := s1.totalShare, shareRate := s1.shareRate, lastVpay := s1.lastVpay)
    && (forall u | u in s.voters ::
        s1.voters[u] == s.voters[u].(lastWeight := s1.voters[u].lastWeight, proxied := s1.voters[u].proxied))
    && (forall u | u in s.voters && u != v && !OnChain(Edges(s.voters), v, u) :: s1.voters[u] == s.voters[u])
    && s1.voters.Keys == s.voters.Keys && (v in s.voters ==> s1.voters[v].proxied == s.voters[v].proxied)
  }

  /** A propagation in any reachable situation terminates and succeeds; its checks, that a proxy
      uses no proxy and that proxies and producers exist, never fail. It keeps vote pay exact, and
      it keeps the tallies exact if and only if no change along the chain is dropped. */
  lemma {:induction false} PropagateKeeps(s: VoteState, v: Name, ext: map<Name, int>)
    requires VotersOk(s) && v in s.voters && Tally(s, ext) && VotePay(s, Tab(0, 0)) && s.voters[v].proxied >= 0
    requires forall p | p in ext && ext[p] < 0 :: !OnChain(Edges(s.voters), v, p)
    ensures Propagate(s, v).Ok?
    ensures var s1 := Propagate(s, v).value;
      && VotersOk(s1) && VotePay(s1, Tab(0, 0)) && Propagated(s, s1, v)
      && (Tally(s1, ext) <==> Clean(s, v))
    decreases Height(Edges(s.voters), v)
  {
    hide SumOf, VotePay, Tally, Acyclic, VotersOk, WeightOf;
    var voter := s.voters[v];
    assert VoterOk(voter, v, s.voters, s.producers) by { RowOf(s, v); }
    var w := WeightOf(s, voter);
    assert w >= 0 by { WeightNonNegative(s, voter); }
    var d := w - voter.lastWeight;
    if !Noticeable(d) {
      DroppedTally(s, v, w, ext);
      SetWeightOk(s, v, w);
      SetWeightPay(s, v, w);
    } else if voter.proxy != NO_NAME {
      PropagateUpwards(s, v, w, ext);
    } else {
      PropagateToProducers(s, v, w, ext);
    }
  }

  lemma RowOf(s: VoteState, v: Name)
    requires VotersOk(s) && v in s.voters
    ensures VoterOk(s.voters[v], v, s.voters, s.producers) && Acyclic(Edges(s.voters))
  {
  }

  lemma WeightNonNegative(s: VoteState, voter: Voter)
    requires voter.proxied >= 0
    ensures WeightOf(s, voter) >= 0
  {
  }

  lemma SetWeightPay(s: VoteState, v: Name, w: int)
    requires v in s.voters && VotePay(s, Tab(0, 0))
    ensures VotePay(SetWeight(s, v, w), Tab(0, 0))
  {
    hide SumOf;
  }

  lemma PropagateToProducers(s: VoteState, v: Name, w: int, ext: map<Name, int>)
    requires VotersOk(s) && v in s.voters && Tally(s, ext) && VotePay(s, Tab(0, 0))
    requires s.voters[v].proxy == NO_NAME && w >= 0 && w == WeightOf(s, s.voters[v])
    requires Noticeable(w - s.voters[v].lastWeight)
    ensures Propagate(s, v).Ok?
    ensures var s1 := Propagate(s, v).value;
      VotersOk(s1) && VotePay(s1, Tab(0, 0)) && Propagated(s, s1, v) && Tally(s1, ext)
  {
    hide SumOf, VotePay, Acyclic, VotersOk, WeightOf, Tally, Spread, SameProducers, Height, OnChain, Edges, Propagated,
         UpdateTotalShare, Ascending, Propagate;
    var voter := s.voters[v];
    var d := w - voter.lastWeight;
    SupportCovered(s, v, w, ext);
    SpreadKeeps(s, voter.producers, d, Tab(0, 0));
    var (s1, tab) := Spread(s, voter.producers, d, Tab(0, 0)).value;
    UpdateTotalShareKeeps(s1, tab);
    TotalsOnly(s1, tab);
    PropagateEnds(s, v, w);
    var s2 := UpdateTotalShare(s1, -tab.inactive, tab.rate);
    assert s1.voters == s.voters && s2.voters == s.voters && s2.producers == s1.producers
      && s2.totalWeight == s1.totalWeight;
    VotersUnchanged(s, s2) by { SameKeys(s, s1); }
    SetWeightOk(s2, v, w);
    SetWeightPay(s2, v, w);
    SetWeightSpreadTally(s, s2, v, w, ext) by { SameKeys(s, s1); }
    SpreadFrame(s, s1, s2, v, w);
  }

  /** The top of a chain. */
  lemma PropagateEnds(s: VoteState, v: Name, w: int)
    requires Acyclic(Edges(s.voters)) && v in s.voters && s.voters[v].proxy == NO_NAME
    requires w == WeightOf(s, s.voters[v]) && Noticeable(w - s.voters[v].lastWeight)
    requires Spread(s, s.voters[v].producers, w - s.voters[v].lastWeight, Tab(0, 0)).Ok?
    ensures var (s1, tab) := Spread(s, s.voters[v].producers, w - s.voters[v].lastWeight, Tab(0, 0)).value;
      var s2 := UpdateTotalShare(s1, -tab.inactive, tab.rate);
      && s2.voters == s.voters
      && Propagate(s, v) == Ok(SetWeight(s2, v, w))
  {
    hide Acyclic, SetWeight, WeightOf, Noticeable, Edges, Spread, UpdateTotalShare, Height;
    var (s1, tab) := Spread(s, s.voters[v].producers, w - s.voters[v].lastWeight, Tab(0, 0)).value;
    TotalsOnly(s1, tab);
  }

  lemma SameKeys(s: VoteState, s1: VoteState)
    requires SameProducers(s, s1)
    ensures s1.producers.Keys == s.producers.Keys
  {
  }

  lemma SpreadFrame(s: VoteState, s1: VoteState, s2: VoteState, v: Name, w: int)
    requires Acyclic(Edges(s.voters)) && v in s.voters
    requires s1 == s.(producers := s1.producers, totalWeight := s1.totalWeight) && SameProducers(s, s1)
    requires s2 == s1.(totalShare := s2.totalShare, shareRate := s2.shareRate, lastVpay := s2.lastVpay)
    ensures Propagated(s, SetWeight(s2, v, w), v)
  {
    hide Acyclic;
  }

  /** Whoever the voter supports holds at least the voter's old weight. */
  lemma SupportCovered(s: VoteState, v: Name, w: int, ext: map<Name, int>)
    requires VotersOk(s) && v in s.voters && Tally(s, ext) && s.voters[v].proxy == NO_NAME && w >= 0
    ensures Acyclic(Edges(s.voters)) && Ascending(s.voters[v].producers)
    ensures forall q | q in s.voters[v].producers ::
      q in s.producers && s.producers[q].votes + w - s.voters[v].lastWeight >= 0
  {
    hide SumOf, Acyclic, LastTo, DirectTo;
    RowOf(s, v);
    forall q | q in s.voters[v].producers
      ensures q in s.producers && s.producers[q].votes + w - s.voters[v].lastWeight >= 0
    {
      WeightWithinSums(s, v, q);
      ShareOfRow(s.voters[v], q);
    }
  }

  lemma VotersUnchanged(s: VoteState, s1: VoteState)
    requires VotersOk(s) && s1.voters == s.voters && s1.producers.Keys == s.producers.Keys
    ensures VotersOk(s1)
  {
    hide Acyclic;
    forall v | v in s1.voters
      ensures VoterOk(s1.voters[v], v, s1.voters, s1.producers)
    {
      assert VoterOk(s.voters[v], v, s.voters, s.producers);
    }
  }

  /** The proxy's received weight stays non-negative: it contains the voter's old weight. */
  lemma ProxiedAfter(s: VoteState, v: Name, w: int, ext: map<Name, int>)
    requires VotersOk(s) && v in s.voters && Tally(s, ext) && w >= 0
    requires s.voters[v].proxy != NO_NAME && Ext(ext, s.voters[v].proxy) >= 0
    ensures s.voters[v].proxy in s.voters && s.voters[s.voters[v].proxy].proxied + w - s.voters[v].lastWeight >= 0
  {
    hide SumOf, Acyclic;
    RowOf(s, v);
    WeightWithinSums(s, v, s.voters[v].proxy);
  }

  lemma PropagateUpwards(s: VoteState, v: Name, w: int, ext: map<Name, int>)
    requires VotersOk(s) && v in s.voters && Tally(s, ext) && VotePay(s, Tab(0, 0))
    requires s.voters[v].proxy != NO_NAME && w >= 0 && w == WeightOf(s, s.voters[v])
    requires Noticeable(w - s.voters[v].lastWeight)
    requires forall p | p in ext && ext[p] < 0 :: !OnChain(Edges(s.voters), v, p)
    ensures Propagate(s, v).Ok?
    ensures var s1 := Propagate(s, v).value;
      && VotersOk(s1) && VotePay(s1, Tab(0, 0)) && Propagated(s, s1, v)
      && (Tally(s1, ext) <==> Clean(s, v))
    decreases Height(Edges(s.voters), v), 0
  {
    hide SumOf, VotePay, Tally, Acyclic, VotersOk, WeightOf, Propagate, Clean, Propagated, AddProxied, SetWeight,
         Height, OnChain, Edges, AddExt, Ext;
    var voter := s.voters[v];
    var q, d := voter.proxy, w - voter.lastWeight;
    var edges := Edges(s.voters);
    RowOf(s, v);
    assert v in edges && edges[v] == q by { EdgeTo(s.voters, v); }
    HeightFalls(edges, v);
    ProxyOnChain(edges, v);
    assert Ext(ext, q) >= 0 by { ExtNonNegative(ext, q); }
    ProxiedAfter(s, v, w, ext);
    var s1 := AddProxied(s, q, d);
    var ext1 := AddExt(ext, q, d);
    AddProxiedTally(s, q, d, ext);
    AddProxiedOk(s, q, d);
    AddProxiedPay(s, q, d);
    ChainUpwards(s, v, ext, d);
    assert s1.voters[q].proxied >= 0 by { AddedProxied(s, q, d); }
    PropagateKeeps(s1, q, ext1);
    var s2 := Propagate(s1, q).value;
    PropagateStep(s, v, w);
    assert Propagate(s, v) == Ok(SetWeight(s2, v, w));
    assert s2.voters[v] == voter by { BelowUntouched(s, s1, s2, v, d); }
    assert Tally(SetWeight(s2, v, w), ext) <==> Clean(s, v) by {
      CleanStep(s, v, w);
      SetWeightTally(s2, v, w, ext);
    }
    SetWeightOk(s2, v, w);
    SetWeightPay(s2, v, w);
    UpwardsFrame(s, s1, s2, v, w);
  }

  lemma EdgeTo(voters: map<Name, Voter>, v: Name)
    requires v in voters && voters[v].proxy != NO_NAME
    ensures v in Edges(voters) && Edges(voters)[v] == voters[v].proxy
  {
  }

  lemma ProxyOnChain(edges: map<Name, Name>, v: Name)
    requires Acyclic(edges) && v in edges
    ensures OnChain(edges, v, edges[v])
  {
  }

  lemma ExtNonNegative(ext: map<Name, int>, p: Name)
    requires p in ext ==> ext[p] >= 0
    ensures Ext(ext, p) >= 0
  {
  }

  lemma AddedProxied(s: VoteState, q: Name, d: int)
    requires q in s.voters
    ensures AddProxied(s, q, d).voters[q].proxied == s.voters[q].proxied + d
  {
  }

  /** Adjustments that are negative stay off the chain above the proxy. */
  lemma ChainUpwards(s: VoteState, v: Name, ext: map<Name, int>, d: int)
    requires Acyclic(Edges(s.voters)) && v in Edges(s.voters)
    requires forall p | p in ext && ext[p] < 0 :: !OnChain(Edges(s.voters), v, p)
    ensures var q := Edges(s.voters)[v];
      forall p | p in AddExt(ext, q, d) && AddExt(ext, q, d)[p] < 0 :: !OnChain(Edges(s.voters), q, p)
  {
    hide Acyclic;
    var edges := Edges(s.voters);
    var q := edges[v];
    forall p | p in AddExt(ext, q, d) && AddExt(ext, q, d)[p] < 0
      ensures !OnChain(edges, q, p)
    {
      if OnChain(edges, q, p) {
        ChainFalls(edges, q, p);
        assert OnChain(edges, v, p);
      }
    }
  }

  ghost predicate StepsUp(s: VoteState, v: Name, w: int) {
    && v in s.voters
    && var voter := s.voters[v];
      voter.proxy != NO_NAME && !voter.isProxy && voter.proxy in s.voters && w == WeightOf(s, voter)
        && Noticeable(w - voter.lastWeight)
  }

  /** One step up the chain. */
  lemma PropagateStep(s: VoteState, v: Name, w: int)
    requires Acyclic(Edges(s.voters)) && StepsUp(s, v, w)
    ensures var q := s.voters[v].proxy; var s1 := AddProxied(s, q, w - s.voters[v].lastWeight);
      Propagate(s1, q).Ok? ==> Propagate(s, v) == Ok(SetWeight(Propagate(s1, q).value, v, w))
  {
    hide Acyclic, AddProxied, SetWeight, WeightOf, Noticeable, Edges;
  }

  lemma CleanStep(s: VoteState, v: Name, w: int)
    requires Acyclic(Edges(s.voters)) && StepsUp(s, v, w)
    ensures Clean(s, v) == Clean(AddProxied(s, s.voters[v].proxy, w - s.voters[v].lastWeight), s.voters[v].proxy)
  {
    hide Acyclic, AddProxied, WeightOf, Noticeable, Edges;
  }

  /** A propagation above a voter does not touch the voter. */
  lemma BelowUntouched(s: VoteState, s1: VoteState, s2: VoteState, v: Name, d: int)
    requires Acyclic(Edges(s.voters)) && v in s.voters && s.voters[v].proxy != NO_NAME && s.voters[v].proxy in s.voters
    requires s.voters[v].proxy != v
    requires s1 == AddProxied(s, s.voters[v].proxy, d) && Propagated(s1, s2, s.voters[v].proxy)
    ensures s2.voters[v] == s.voters[v]
  {
    hide Acyclic;
    var edges, q := Edges(s.voters), s.voters[v].proxy;
    HeightFalls(edges, v);
    if OnChain(edges, q, v) {
      ChainFalls(edges, q, v);
    }
  }

  lemma UpwardsFrame(s: VoteState, s1: VoteState, s2: VoteState, v: Name, w: int)
    requires Acyclic(Edges(s.voters)) && v in s.voters && s.voters[v].proxy != NO_NAME && s.voters[v].proxy in s.voters
    requires s1 == AddProxied(s, s.voters[v].proxy, w - s.voters[v].lastWeight)
    requires Propagated(s1, s2, s.voters[v].proxy) && s2.voters[v] == s.voters[v]
    ensures Propagated(s, SetWeight(s2, v, w), v)
  {
    hide Acyclic;
    var edges := Edges(s.voters);
    var q := s.voters[v].proxy;
    HeightFalls(edges, v);
    forall u | u in s.voters && u != v && !OnChain(edges, v, u)
      ensures s2.voters[u] == s.voters[u]
    {
      assert u != q && !OnChain(edges, q, u);
    }
  }

  lemma AddProxiedPay(s: VoteState, p: Name, d: int)
    requires p in s.voters && VotePay(s, Tab(0, 0))
    ensures VotePay(AddProxied(s, p, d), Tab(0, 0))
  {
    hide SumOf;
  }
}
