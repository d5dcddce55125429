/** The lazy vote-pay accounting together with non-negative votes: exact as long as no producer's
    votes are driven below zero, whether or not changes of weight are dropped elsewhere. */
module VotePayRuns {
  import opened Basics
  import opened Tables
  import opened Voting
  import opened VotingInvariant
  import opened VotingProofs
  import opened VoteCast
  import opened ProducerPay
  import opened ProxyGraph

  // ---------- what the loops leave ----------

  /** A row brought up to date with new votes. */
  function Updated(p: Producer, now: nat, votes: int): Producer {
    var crossed := p.lastClaim + THREE_DAYS <= now;
    var updatedAfter := p.lastClaim + THREE_DAYS <= p.lastUpdate;
    UpdateShare(p.(votes := votes), now, if updatedAfter then 0 else p.votes, crossed && !updatedAfter).0
  }

  /** The rows after `d` was added to each of the listed producers. */
  function SpreadRows(s: VoteState, names: seq<Name>, d: int): map<Name, Producer> {
    map q | q in s.producers ::
      if q in names then Updated(s.producers[q], s.now, s.producers[q].votes + d) else s.producers[q]
  }

  /** The rows after a vote's changes, each clamped at zero. */
  function VoteRows(s: VoteState, deltas: map<Name, Delta>): map<Name, Producer> {
    map q | q in s.producers ::
      if q in deltas then Updated(s.producers[q], s.now, Max(0, s.producers[q].votes + deltas[q].amount))
      else s.producers[q]
  }

  lemma ChangeVotesLeaves(s: VoteState, name: Name, votes: int, d: int, tab: Tab)
    requires name in s.producers
    ensures var s1 := ChangeVotes(s, name, votes, d, tab).0;
      && s1 == s.(producers := s1.producers, totalWeight := s1.totalWeight)
      && s1.producers == s.producers[name := Updated(s.producers[name], s.now, votes)]
  {
  }

  lemma {:induction false} SpreadLeaves(s: VoteState, names: seq<Name>, d: int, tab: Tab)
    requires Ascending(names) && Spread(s, names, d, tab).Ok?
    ensures Spread(s, names, d, tab).value.0.producers == SpreadRows(s, names, d)
    ensures forall q | q in names :: q in s.producers
  {
    hide ChangeVotes, Updated, Ascending, SpreadRows;
    if names == [] {
      NoSpreadRows(s, names, d);
    } else {
      var rest, name := names[..|names| - 1], names[|names| - 1];
      assert names == rest + [name];
      AscendingDistinct(names);
      SpreadLeaves(s, rest, d, tab);
      var (s1, tab1) := Spread(s, rest, d, tab).value;
      ChangeVotesLeaves(s1, name, s1.producers[name].votes + d, d, tab1);
      OneSpreadRow(s, rest, name, d);
    }
  }

  lemma NoSpreadRows(s: VoteState, names: seq<Name>, d: int)
    requires names == []
    ensures SpreadRows(s, names, d) == s.producers
  {
    hide Updated;
  }

  lemma OneSpreadRow(s: VoteState, names: seq<Name>, name: Name, d: int)
    requires name !in names && name in SpreadRows(s, names, d)
    ensures name in s.producers && SpreadRows(s, names, d)[name] == s.producers[name]
    ensures SpreadRows(s, names + [name], d)
         == SpreadRows(s, names, d)[name := Updated(s.producers[name], s.now, s.producers[name].votes + d)]
  {
    hide Updated;
  }

  lemma {:induction false} LoopLeaves(s: VoteState, deltas: map<Name, Delta>, voting: bool, tab: Tab)
    requires ApplyDeltas(s, deltas, voting, tab).Ok?
    ensures ApplyDeltas(s, deltas, voting, tab).value.0.producers == VoteRows(s, deltas)
    decreases |deltas.Keys|
  {
    hide ChangeVotes, Updated, VoteRows;
    if deltas.Keys == {} {
      NoVoteRows(s, deltas);
    } else {
      var name := Least(deltas.Keys, n => 0);
      var rest := deltas - {name};
      assert rest.Keys == deltas.Keys - {name};
      if name in s.producers {
        var d := deltas[name].amount;
        var votes := Max(0, s.producers[name].votes + d);
        ChangeVotesLeaves(s, name, votes, d, tab);
        var (s1, tab1) := ChangeVotes(s, name, votes, d, tab);
        LoopLeaves(s1, rest, voting, tab1);
        OneVoteRow(s, s1, deltas, name);
      } else {
        LoopLeaves(s, rest, voting, tab);
        SkipVoteRow(s, deltas, name);
      }
    }
  }

  lemma NoVoteRows(s: VoteState, deltas: map<Name, Delta>)
    requires deltas.Keys == {}
    ensures VoteRows(s, deltas) == s.producers
  {
  }

  lemma OneVoteRow(s: VoteState, s1: VoteState, deltas: map<Name, Delta>, name: Name)
    requires name in deltas && name in s.producers && s1.now == s.now
    requires s1.producers == s.producers[name :=
      Updated(s.producers[name], s.now, Max(0, s.producers[name].votes + deltas[name].amount))]
    ensures VoteRows(s1, deltas - {name}) == VoteRows(s, deltas)
  {
    hide Updated;
    assert forall q | q in deltas && q != name :: q in deltas - {name} && deltas[q] == (deltas - {name})[q];
  }

  lemma SkipVoteRow(s: VoteState, deltas: map<Name, Delta>, name: Name)
    requires name in deltas && name !in s.producers
    ensures VoteRows(s, deltas - {name}) == VoteRows(s, deltas)
  {
    hide Updated;
    assert forall q | q in deltas && q != name :: q in deltas - {name} && deltas[q] == (deltas - {name})[q];
  }

  // ---------- propagation ----------

  /** At the top of the chain, no producer is left with negative votes. */
  ghost predicate Sustained(s: VoteState, v: Name)
    requires Acyclic(Edges(s.voters)) && v in s.voters
    decreases Height(Edges(s.voters), v)
  {
    var voter := s.voters[v];
    var d := WeightOf(s, voter) - voter.lastWeight;
    if !Noticeable(d) then true
    else if voter.proxy != NO_NAME then
      voter.proxy in s.voters ==>
        (HeightFalls(Edges(s.voters), v); Sustained(AddProxied(s, voter.proxy, d), voter.proxy))
    else forall q | q in voter.producers && q in s.producers :: s.producers[q].votes + d >= 0
  }

  /** The accounting does not look at voters. */
  lemma VotersIrrelevant(s: VoteState, s1: VoteState, tab: Tab)
    requires s1 == s.(voters := s1.voters)
    ensures VotePay(s1, tab) <==> VotePay(s, tab)
  {
    hide SumOf, ProducerOk;
  }

  lemma NegativeVotes(s: VoteState, q: Name, tab: Tab)
    requires q in s.producers && s.producers[q].votes < 0
    ensures !VotePay(s, tab)
  {
    hide SumOf;
  }

  /** The producer loop of a propagation, settled. */
  lemma SpreadPay(s: VoteState, names: seq<Name>, d: int)
    requires VotePay(s, Tab(0, 0)) && Ascending(names) && Spread(s, names, d, Tab(0, 0)).Ok?
    ensures var (s1, tab) := Spread(s, names, d, Tab(0, 0)).value;
      VotePay(UpdateTotalShare(s1, -tab.inactive, tab.rate), Tab(0, 0))
      <==> forall q | q in names && q in s.producers :: s.producers[q].votes + d >= 0
  {
    hide VotePay, Spread, UpdateTotalShare, Ascending;
    SpreadLeaves(s, names, d, Tab(0, 0));
    var (s1, tab) := Spread(s, names, d, Tab(0, 0)).value;
    TotalsOnly(s1, tab);
    if forall q | q in names && q in s.producers :: s.producers[q].votes + d >= 0 {
      SpreadKeeps(s, names, d, Tab(0, 0));
      UpdateTotalShareKeeps(s1, tab);
    } else {
      var q :| q in names && q in s.producers && s.producers[q].votes + d < 0;
      NegativeVotes(UpdateTotalShare(s1, -tab.inactive, tab.rate), q, Tab(0, 0));
    }
  }

  /** A propagation keeps the accounting exact and everybody's votes non-negative if and only if it
      leaves none of the producers it reaches with negative votes; what it drops does not matter. */
  lemma {:induction false} PropagatePay(s: VoteState, v: Name)
    requires Acyclic(Edges(s.voters)) && Proxies(s.voters) && v in s.voters && VotePay(s, Tab(0, 0))
    requires Propagate(s, v).Ok?
    ensures VotePay(Propagate(s, v).value, Tab(0, 0)) <==> Sustained(s, v)
    decreases Height(Edges(s.voters), v)
  {
    hide Acyclic, WeightOf, Spread, UpdateTotalShare, VotePay, Proxies, Ascending, Propagate, Height, Edges, Noticeable,
         Sustained;
    var voter := s.voters[v];
    var w := WeightOf(s, voter);
    var d := w - voter.lastWeight;
    SustainedStep(s, v, w, d);
    if !Noticeable(d) {
      PropagateDropped(s, v, w, d);
      VotersIrrelevant(s, Propagate(s, v).value, Tab(0, 0));
    } else if voter.proxy != NO_NAME {
      PropagatePassed(s, v, w, d);
      ProxyHigher(s, v);
      var s1 := AddProxied(s, voter.proxy, d);
      VotersIrrelevant(s, s1, Tab(0, 0));
      AddProxiedShape(s, voter.proxy, d);
      ShapeKeepsProxies(s.voters, s1.voters);
      PropagatePay(s1, voter.proxy);
      VotersIrrelevant(Propagate(s1, voter.proxy).value, Propagate(s, v).value, Tab(0, 0));
    } else {
      PropagateSpread(s, v, w, d);
      assert Ascending(voter.producers) by { ListOf(s.voters, v); }
      SpreadPay(s, voter.producers, d);
      var (s1, tab) := Spread(s, voter.producers, d, Tab(0, 0)).value;
      VotersIrrelevant(UpdateTotalShare(s1, -tab.inactive, tab.rate), Propagate(s, v).value, Tab(0, 0));
    }
  }

  lemma SustainedStep(s: VoteState, v: Name, w: int, d: int)
    requires Acyclic(Edges(s.voters)) && Finds(s, v, w, d)
    ensures !Noticeable(d) ==> Sustained(s, v)
    ensures Noticeable(d) && s.voters[v].proxy != NO_NAME && s.voters[v].proxy in s.voters ==>
      (Sustained(s, v) <==> Sustained(AddProxied(s, s.voters[v].proxy, d), s.voters[v].proxy))
    ensures Noticeable(d) && s.voters[v].proxy == NO_NAME ==>
      (Sustained(s, v) <==> forall q | q in s.voters[v].producers && q in s.producers :: s.producers[q].votes + d >= 0)
  {
    hide Acyclic, AddProxied, WeightOf, Noticeable, Edges;
  }

  lemma ListOf(voters: map<Name, Voter>, v: Name)
    requires Proxies(voters) && v in voters
    ensures Ascending(voters[v].producers)
  {
  }

  // ---------- the producer loop of a vote ----------

  /** Only producers past their three-day cut-off are charged more than they hold. */
  predicate Drawn(s: VoteState, deltas: map<Name, Delta>) {
    forall q | q in deltas && q in s.producers ::
      s.producers[q].votes + deltas[q].amount >= 0 || s.producers[q].lastClaim + THREE_DAYS <= s.now
  }

  /** `tab` as if its rate were higher by `gap`. */
  function Raised(tab: Tab, gap: int): Tab {
    tab.(rate := tab.rate + gap)
  }

  /** What the clamp at zero swallows of a change to a counted producer's votes. */
  function Swallowed(s: VoteState, name: Name, d: int): nat
    requires name in s.producers
  {
    if s.producers[name].lastClaim + THREE_DAYS <= s.now then 0 else Max(0, -(s.producers[name].votes + d))
  }

  /** One turn of the loop opens a gap of exactly what the clamp swallows. */
  lemma TurnPay(s: VoteState, name: Name, d: int, tab: Tab, gap: nat)
    requires VotePay(s, Raised(tab, gap)) && name in s.producers
    ensures var (s1, tab1) := ChangeVotes(s, name, Max(0, s.producers[name].votes + d), d, tab);
      VotePay(s1, Raised(tab1, gap + Swallowed(s, name, d)))
  {
    hide VotePay, UpdateShare;
    var votes := Max(0, s.producers[name].votes + d);
    var held := s.producers[name].votes;
    assert held >= 0 by { VotesNonNegative(s, name, Raised(tab, gap)); }
    ChangeVotesKeeps(s, name, votes, votes - held, Raised(tab, gap));
    var (s1, tab1) := ChangeVotes(s, name, votes, d, tab);
    var (s2, tab2) := ChangeVotes(s, name, votes, votes - held, Raised(tab, gap));
    assert s1 == s2.(totalWeight := s1.totalWeight);
    WeightIrrelevant(s2, s1, tab2);
  }

  lemma VotesNonNegative(s: VoteState, name: Name, tab: Tab)
    requires VotePay(s, tab) && name in s.producers
    ensures s.producers[name].votes >= 0
  {
    hide SumOf;
  }

  lemma WeightIrrelevant(s: VoteState, s1: VoteState, tab: Tab)
    requires s1 == s.(totalWeight := s1.totalWeight)
    ensures VotePay(s1, tab) <==> VotePay(s, tab)
  {
    hide SumOf, ProducerOk;
  }

  /** The whole loop: the accounting is off by some amount, which is zero if and only if no counted
      producer was charged more than it held. */
  lemma {:induction false} LoopPay(s: VoteState, deltas: map<Name, Delta>, voting: bool, tab: Tab, gap0: nat)
    returns (gap: nat)
    requires VotePay(s, Raised(tab, gap0)) && ApplyDeltas(s, deltas, voting, tab).Ok?
    ensures var (s1, tab1) := ApplyDeltas(s, deltas, voting, tab).value; VotePay(s1, Raised(tab1, gap))
    ensures gap >= gap0 && (gap == gap0 <==> Drawn(s, deltas))
    decreases |deltas.Keys|
  {
    hide VotePay, ChangeVotes, Drawn, Swallowed, Raised;
    if deltas.Keys == {} {
      gap := gap0;
      NothingDrawn(s, deltas);
    } else {
      var name := Least(deltas.Keys, n => 0);
      var rest := deltas - {name};
      assert rest.Keys == deltas.Keys - {name};
      if name in s.producers {
        var d := deltas[name].amount;
        var votes := Max(0, s.producers[name].votes + d);
        TurnPay(s, name, d, tab, gap0);
        ChangeVotesRow(s, name, votes, d, tab);
        var (s1, tab1) := ChangeVotes(s, name, votes, d, tab);
        gap := LoopPay(s1, rest, voting, tab1, gap0 + Swallowed(s, name, d));
        DrawnStep(s, s1, deltas, name);
      } else {
        gap := LoopPay(s, rest, voting, tab, gap0);
        DrawnSkip(s, deltas, name);
      }
    }
  }

  lemma NothingDrawn(s: VoteState, deltas: map<Name, Delta>)
    requires deltas.Keys == {}
    ensures Drawn(s, deltas)
  {
  }

  lemma DrawnStep(s: VoteState, s1: VoteState, deltas: map<Name, Delta>, name: Name)
    requires name in deltas && name in s.producers && SameProducers(s, s1) && s1.now == s.now
    requires forall q | q in s.producers && q != name :: s1.producers[q] == s.producers[q]
    ensures Drawn(s, deltas) <==> Drawn(s1, deltas - {name}) && Swallowed(s, name, deltas[name].amount) == 0
  {
    assert forall q | q in deltas && q != name :: q in deltas - {name} && deltas[q] == (deltas - {name})[q];
  }

  lemma DrawnSkip(s: VoteState, deltas: map<Name, Delta>, name: Name)
    requires name in deltas && name !in s.producers
    ensures Drawn(s, deltas) <==> Drawn(s, deltas - {name})
  {
    assert forall q | q in deltas && q != name :: q in deltas - {name} && deltas[q] == (deltas - {name})[q];
  }

  /** Settling a loop whose accounting is off: the clamp of the global rate makes up for it only if
      no counted votes are left. */
  lemma SettleGap(s: VoteState, tab: Tab, gap: nat)
    requires VotePay(s, Raised(tab, gap)) && s.shareRate >= 0
    ensures VotePay(UpdateTotalShare(s, -tab.inactive, tab.rate), Tab(0, 0))
            <==> gap == 0 || SumOf(s.producers, CountedVotes) == 0
  {
    hide SumOf, ProducerOk, SharesAt, CountedVotes;
    CountedBounds(s, Raised(tab, gap));
    SharesFit(s, tab, gap);
  }

  /** The share half is exact in any case. */
  lemma SharesFit(s: VoteState, tab: Tab, gap: nat)
    requires VotePay(s, Raised(tab, gap)) && s.shareRate >= 0
    ensures var s1 := UpdateTotalShare(s, -tab.inactive, tab.rate);
      && s1.totalShare == SumOf(s.producers, SharesAt(s.now))
      && s1.shareRate == Max(0, SumOf(s.producers, CountedVotes) - gap)
      && s1 == s.(totalShare := s1.totalShare, shareRate := s1.shareRate, lastVpay := s.now)
  {
    hide SumOf, ProducerOk, SharesAt, CountedVotes;
    CountedBounds(s, Raised(tab, gap));
  }

  /** The producer loop of a vote, settled: the accounting stays exact if and only if no counted
      producer was charged more than it held, or no counted votes are left at all. */
  lemma VoteLoopPay(s: VoteState, deltas: map<Name, Delta>, voting: bool)
    requires VotePay(s, Tab(0, 0)) && ApplyDeltas(s, deltas, voting, Tab(0, 0)).Ok?
    ensures VotePay(Settled(s, deltas, voting), Tab(0, 0)) <==> LoopExact(s, deltas)
  {
    hide VotePay, ApplyDeltas, UpdateTotalShare, Drawn, SumOf, VoteRows;
    LoopLeaves(s, deltas, voting, Tab(0, 0));
    assert Raised(Tab(0, 0), 0) == Tab(0, 0);
    var gap := LoopPay(s, deltas, voting, Tab(0, 0), 0);
    var (s1, tab) := ApplyDeltas(s, deltas, voting, Tab(0, 0)).value;
    assert s1.shareRate >= 0 by { RateNonNegative(s); }
    SettleGap(s1, tab, gap);
  }

  lemma RateNonNegative(s: VoteState)
    requires VotePay(s, Tab(0, 0))
    ensures s.shareRate >= 0
  {
    hide SumOf;
    CountedBounds(s, Tab(0, 0));
  }

  /** The state after the loop and the update of the global counters. */
  function Settled(s: VoteState, deltas: map<Name, Delta>, voting: bool): VoteState
    requires ApplyDeltas(s, deltas, voting, Tab(0, 0)).Ok?
  {
    var (s1, tab) := ApplyDeltas(s, deltas, voting, Tab(0, 0)).value;
    UpdateTotalShare(s1, -tab.inactive, tab.rate)
  }

  /** No counted producer is charged more than it holds, or no counted votes would be left at all:
      both can be read off the tables before the loop. */
  ghost predicate LoopExact(s: VoteState, deltas: map<Name, Delta>) {
    Drawn(s, deltas) || SumOf(VoteRows(s, deltas), CountedVotes) == 0
  }

  // ---------- whole actions ----------

  ghost predicate WithdrawalSustained(s: VoteState, v: Name)
    requires Acyclic(Edges(s.voters)) && v in s.voters
  {
    var voter := s.voters[v];
    voter.lastWeight > 0 && voter.proxy != NO_NAME && voter.proxy in s.voters ==>
      Sustained(AddProxied(s, voter.proxy, -voter.lastWeight), voter.proxy)
  }

  ghost predicate GrantSustained(s: VoteState, proxy: Name, weight: int)
    requires Acyclic(Edges(s.voters))
  {
    proxy != NO_NAME && proxy in s.voters && weight >= 0 ==> Sustained(AddProxied(s, proxy, weight), proxy)
  }

  /** The three stages of a vote, each as far as it is reached. */
  ghost predicate VoteSustained(s: VoteState, v: Name, proxy: Name, producers: seq<Name>, voting: bool)
    requires Acyclic(Edges(s.voters))
  {
    v in s.voters ==>
      var voter := s.voters[v];
      var weight := WeightOf(s, voter);
      var r1 := WithdrawWeight(Activated(s, v), v);
      && WithdrawalSustained(Activated(s, v), v)
      && (r1.Ok? ==>
            var r2 := GrantWeight(r1.value, proxy, weight, voting);
            r2.Ok? ==>
              var deltas := Deltas(voter, proxy, producers, weight);
              && GrantSustained(r1.value, proxy, weight)
              && (ApplyDeltas(r2.value, deltas, voting, Tab(0, 0)).Ok? ==> LoopExact(r2.value, deltas)))
  }

  /** No producer's votes are driven below zero by the action, as far as they still count. */
  ghost predicate SustainedAction(s: VoteState, a: Action)
    requires Acyclic(Edges(s.voters))
  {
    match a
    case Vote(voter, proxy, names) => VoteSustained(s, voter, proxy, names, true)
    case RegProxy(voter, isProxy) => voter in s.voters ==> Sustained(Registered(s, voter, isProxy), voter)
    case Stake(voter, delta) =>
      var s1 := Staked(s, voter, delta);
      var row := s1.voters[voter];
      |row.producers| > 0 || row.proxy != NO_NAME ==> VoteSustained(s1, voter, row.proxy, row.producers, false)
    case _ => true
  }

  lemma WithdrawPay(s: VoteState, v: Name)
    requires Acyclic(Edges(s.voters)) && Proxies(s.voters) && v in s.voters && VotePay(s, Tab(0, 0))
    requires WithdrawWeight(s, v).Ok?
    ensures VotePay(WithdrawWeight(s, v).value, Tab(0, 0)) <==> WithdrawalSustained(s, v)
  {
    hide Acyclic, Propagate, Sustained, VotePay, Proxies;
    var voter := s.voters[v];
    if voter.lastWeight > 0 && voter.proxy != NO_NAME {
      var s1 := AddProxied(s, voter.proxy, -voter.lastWeight);
      VotersIrrelevant(s, s1, Tab(0, 0));
      ShapeKeepsProxies(s.voters, s1.voters);
      PropagatePay(s1, voter.proxy);
    }
  }

  lemma GrantPay(s: VoteState, proxy: Name, weight: int, voting: bool)
    requires Acyclic(Edges(s.voters)) && Proxies(s.voters) && VotePay(s, Tab(0, 0))
    requires GrantWeight(s, proxy, weight, voting).Ok?
    ensures VotePay(GrantWeight(s, proxy, weight, voting).value, Tab(0, 0)) <==> GrantSustained(s, proxy, weight)
  {
    hide Acyclic, Propagate, Sustained, VotePay, Proxies;
    if proxy != NO_NAME && weight >= 0 {
      var s1 := AddProxied(s, proxy, weight);
      VotersIrrelevant(s, s1, Tab(0, 0));
      ShapeKeepsProxies(s.voters, s1.voters);
      PropagatePay(s1, proxy);
    }
  }

  lemma UpdateVotesPay(s: VoteState, v: Name, proxy: Name, producers: seq<Name>, voting: bool)
    requires Acyclic(Edges(s.voters)) && Proxies(s.voters) && VotePay(s, Tab(0, 0))
    requires UpdateVotes(s, v, proxy, producers, voting).Ok? && VoteSustained(s, v, proxy, producers, voting)
    ensures VotePay(UpdateVotes(s, v, proxy, producers, voting).value, Tab(0, 0))
  {
    hide Acyclic, Edges, WithdrawWeight, GrantWeight, ApplyDeltas, Deltas, UpdateTotalShare, WeightOf, VotePay, Proxies,
         SameShape, WithdrawalSustained, GrantSustained, LoopExact;
    var voter := s.voters[v];
    var weight := WeightOf(s, voter);
    var s0 := Activated(s, v);
    ActivationIrrelevant(s, s0);
    WithdrawShape(s0, v);
    WithdrawPay(s0, v);
    var s1 := WithdrawWeight(s0, v).value;
    ShapeKeepsProxies(s0.voters, s1.voters);
    GrantShape(s1, proxy, weight, voting);
    GrantPay(s1, proxy, weight, voting);
    var s2 := GrantWeight(s1, proxy, weight, voting).value;
    var deltas := Deltas(voter, proxy, producers, weight);
    VoteLoopPay(s2, deltas, voting);
    VotersIrrelevant(Settled(s2, deltas, voting), UpdateVotes(s, v, proxy, producers, voting).value, Tab(0, 0));
  }

  lemma ActivationIrrelevant(s: VoteState, s0: VoteState)
    requires s0 == s.(totalActivated := s0.totalActivated)
    ensures VotePay(s0, Tab(0, 0)) <==> VotePay(s, Tab(0, 0))
  {
    hide SumOf, ProducerOk;
  }

  lemma RegisterProxyPay(s: VoteState, v: Name, isProxy: bool)
    requires Acyclic(Edges(s.voters)) && Proxies(s.voters) && VotePay(s, Tab(0, 0)) && RegisterProxy(s, v, isProxy).Ok?
    requires v in s.voters ==> Sustained(Registered(s, v, isProxy), v)
    ensures VotePay(RegisterProxy(s, v, isProxy).value, Tab(0, 0))
  {
    hide Acyclic, Propagate, Sustained, VotePay, Proxies;
    if v in s.voters {
      var s1 := Registered(s, v, isProxy);
      if s.voters[v].proxy != NO_NAME {
        ProxyUsers(s.voters, v);
      }
      VotersIrrelevant(s, s1, Tab(0, 0));
      RowProxies(s.voters, v, s1.voters[v]);
      PropagatePay(s1, v);
    } else {
      VotersIrrelevant(s, RegisterProxy(s, v, isProxy).value, Tab(0, 0));
    }
  }

  lemma ChangeStakePay(s: VoteState, v: Name, delta: int)
    requires Acyclic(Edges(s.voters)) && Proxies(s.voters) && VotePay(s, Tab(0, 0)) && ChangeStake(s, v, delta).Ok?
    requires SustainedAction(s, Stake(v, delta))
    ensures VotePay(ChangeStake(s, v, delta).value, Tab(0, 0))
  {
    hide Acyclic, UpdateVotes, VoteSustained, VotePay, Proxies, Edges;
    var s1 := Staked(s, v, delta);
    var row := s1.voters[v];
    if v in s.voters && row.proxy != NO_NAME {
      ProxyUsers(s.voters, v);
    }
    VotersIrrelevant(s, s1, Tab(0, 0));
    RowProxies(s.voters, v, row);
    if |row.producers| > 0 || row.proxy != NO_NAME {
      UpdateVotesPay(s1, v, row.proxy, row.producers, false);
    }
  }

  /** Every action that drives no counted votes below zero keeps the accounting exact. */
  lemma ExecPay(s: PayState, a: Action)
    requires Acyclic(Edges(s.votes.voters)) && Proxies(s.votes.voters) && VotePay(s.votes, Tab(0, 0)) && s.votes.now > 0
    requires SustainedAction(s.votes, a) && Exec(s, a).Ok?
    ensures VotePay(Exec(s, a).value.votes, Tab(0, 0)) && Exec(s, a).value.votes.now > 0
  {
    hide Acyclic, Edges, Proxies, VotePay, UpdateVotes, RegisterProxy, ChangeStake, ClaimRewards, OnBlock,
         RegisterProducer, UnregisterProducer, Sustained, VoteSustained, SyncStake;
    ClockKept(s, a);
    match a
    case Tick(micros) => TimePay(s.votes, micros);
    case Vote(voter, proxy, names) => UpdateVotesPay(s.votes, voter, proxy, names, true);
    case RegProxy(voter, isProxy) => RegisterProxyPay(s.votes, voter, isProxy);
    case Stake(voter, delta) => ChangeStakePay(s.votes, voter, delta);
    case SyncRexStake(voter, delta) => SyncStakePay(s.votes, voter, delta);
    case RegProducer(producer) => RegisterProducerPay(s.votes, producer);
    case UnregProducer(producer) => UnregisterPay(s.votes, producer);
    case Block(producer) => BlockPays(s, producer);
    case Claim(producer) => ClaimPays(s, producer);
    case _ =>
  }

  lemma SyncStakePay(s: VoteState, v: Name, delta: int)
    requires VotePay(s, Tab(0, 0))
    ensures VotePay(SyncStake(s, v, delta), Tab(0, 0))
  {
    VotersIrrelevant(s, SyncStake(s, v, delta), Tab(0, 0));
  }

  lemma UnregisterPay(s: VoteState, name: Name)
    requires VotePay(s, Tab(0, 0)) && UnregisterProducer(s, name).Ok?
    ensures VotePay(UnregisterProducer(s, name).value, Tab(0, 0))
  {
    hide VotePay;
    SameRowPay(s, name, s.producers[name].(isActive := false));
  }

  lemma ClaimPays(s: PayState, owner: Name)
    requires VotePay(s.votes, Tab(0, 0)) && ClaimRewards(s, owner).Ok?
    ensures VotePay(ClaimRewards(s, owner).value.votes, Tab(0, 0))
  {
    hide VotePay, ClaimVotes, NewTokens, BlockPay, PayIf;
    PayOutPay(FillBuckets(s).value, owner);
  }

  // ---------- dropping nothing is more than enough ----------

  lemma VotersProxies(s: VoteState)
    requires VotersOk(s)
    ensures Proxies(s.voters) && Acyclic(Edges(s.voters))
  {
    hide Acyclic;
    forall v | v in s.voters
      ensures Ascending(s.voters[v].producers)
      ensures s.voters[v].proxy != NO_NAME ==>
        s.voters[v].proxy in s.voters && s.voters[v].proxy != v && !s.voters[v].isProxy && s.voters[v].producers == []
    {
      assert VoterOk(s.voters[v], v, s.voters, s.producers);
    }
  }

  /** With exact tallies, a vote that drops no change drives nobody's votes below zero. */
  lemma CleanVoteSustained(s: VoteState, v: Name, proxy: Name, producers: seq<Name>, voting: bool)
    requires VoteInv(s) && CleanVote(s, v, proxy) && UpdateVotes(s, v, proxy, producers, voting).Ok?
    requires v in s.voters && !voting ==> proxy == s.voters[v].proxy
    ensures VoteSustained(s, v, proxy, producers, voting)
  {
    hide SumOf, VotePay, Tally, Acyclic, VotersOk, WithdrawWeight, GrantWeight, UpdateVotes, Edges, Deltas, ApplyDeltas,
         CleanWithdrawal, CleanGrant, WeightOf, Moved, Proxies, WithdrawalSustained, GrantSustained, LoopExact, Settled;
    assert Acyclic(Edges(s.voters)) by { InvAcyclic(s); }
    UpdateVotesStages(s, v, proxy, producers, voting);
    var voter := s.voters[v];
    RowOf(s, v);
    var s0 := Activated(s, v);
    ActivatedSame(s, s0);
    VotersProxies(s0);
    var weight := WeightOf(s, voter);
    AllReceivedNonNegative(s, v);
    WeightNonNegative(s, voter);
    WithdrawKeeps(s0, v);
    WithdrawPay(s0, v);
    var s1 := WithdrawWeight(s0, v).value;
    MovedRows(s0, s1, v);
    VotersProxies(s1);
    assert proxy != NO_NAME ==> GoodProxy(s1, v, proxy);
    GrantKeeps(s1, v, proxy, weight, voting);
    GrantPay(s1, proxy, weight, voting);
    UpdateVotesKeeps(s, v, proxy, producers, voting);
    LoopOfVote(s, v, proxy, producers, voting);
  }

  /** The last stage of a vote decides its accounting. */
  lemma LoopOfVote(s: VoteState, v: Name, proxy: Name, producers: seq<Name>, voting: bool)
    requires Acyclic(Edges(s.voters)) && UpdateVotes(s, v, proxy, producers, voting).Ok?
    requires VotePay(UpdateVotes(s, v, proxy, producers, voting).value, Tab(0, 0))
    ensures v in s.voters && WithdrawWeight(Activated(s, v), v).Ok?
    ensures var s1 := WithdrawWeight(Activated(s, v), v).value; var weight := WeightOf(s, s.voters[v]);
      && GrantWeight(s1, proxy, weight, voting).Ok?
      && var s2 := GrantWeight(s1, proxy, weight, voting).value;
          var deltas := Deltas(s.voters[v], proxy, producers, weight);
        && ApplyDeltas(s2, deltas, voting, Tab(0, 0)).Ok?
        && (VotePay(s2, Tab(0, 0)) ==> LoopExact(s2, deltas))
  {
    hide Acyclic, Edges, WithdrawWeight, GrantWeight, ApplyDeltas, Deltas, UpdateTotalShare, WeightOf, VotePay,
         LoopExact;
    var weight := WeightOf(s, s.voters[v]);
    var s2 := GrantWeight(WithdrawWeight(Activated(s, v), v).value, proxy, weight, voting).value;
    var deltas := Deltas(s.voters[v], proxy, producers, weight);
    VotersIrrelevant(Settled(s2, deltas, voting), UpdateVotes(s, v, proxy, producers, voting).value, Tab(0, 0));
    if VotePay(s2, Tab(0, 0)) {
      VoteLoopPay(s2, deltas, voting);
    }
  }

  lemma CleanSustained(s: PayState, a: Action)
    requires VoteInv(s.votes) && Admissible(a) && Acyclic(Edges(s.votes.voters)) && CleanAction(s.votes, a)
    requires Exec(s, a).Ok?
    ensures SustainedAction(s.votes, a)
  {
    hide SumOf, VotePay, Tally, Acyclic, VotersOk, UpdateVotes, Edges, Proxies, VoteSustained, CleanVote, Clean,
         Sustained, Propagate, Propagated;
    match a
    case Vote(voter, proxy, names) => CleanVoteSustained(s.votes, voter, proxy, names, true);
    case RegProxy(voter, isProxy) =>
      if voter in s.votes.voters {
        var s1 := Registered(s.votes, voter, isProxy);
        RegisteredOk(s.votes, voter, isProxy);
        AllReceivedNonNegative(s.votes, voter);
        VotersProxies(s1);
        PropagateKeeps(s1, voter, map[]);
        PropagatePay(s1, voter);
      }
    case Stake(voter, delta) =>
      var s1 := Staked(s.votes, voter, delta);
      StakedKeeps(s.votes, voter, delta);
      var row := s1.voters[voter];
      if |row.producers| > 0 || row.proxy != NO_NAME {
        CleanVoteSustained(s1, voter, row.proxy, row.producers, false);
      }
    case _ =>
  }

  // ---------- the clock ----------

  lemma {:induction false} PropagateClock(s: VoteState, v: Name)
    requires Acyclic(Edges(s.voters)) && v in s.voters && Propagate(s, v).Ok?
    ensures Propagate(s, v).value.now == s.now
    decreases Height(Edges(s.voters), v)
  {
    hide Acyclic, WeightOf, Spread, UpdateTotalShare, Propagate, Height, Edges, Noticeable;
    var voter := s.voters[v];
    var w := WeightOf(s, voter);
    var d := w - voter.lastWeight;
    if Noticeable(d) && voter.proxy != NO_NAME {
      PropagatePassed(s, v, w, d);
      ProxyHigher(s, v);
      PropagateClock(AddProxied(s, voter.proxy, d), voter.proxy);
    } else if Noticeable(d) {
      PropagateSpread(s, v, w, d);
      var (s1, tab) := Spread(s, voter.producers, d, Tab(0, 0)).value;
      TotalsOnly(s1, tab);
    } else {
      PropagateDropped(s, v, w, d);
    }
  }

  lemma UpdateVotesClock(s: VoteState, v: Name, proxy: Name, producers: seq<Name>, voting: bool)
    requires Acyclic(Edges(s.voters)) && UpdateVotes(s, v, proxy, producers, voting).Ok?
    ensures UpdateVotes(s, v, proxy, producers, voting).value.now == s.now
  {
    hide Acyclic, Edges, ApplyDeltas, Deltas, UpdateTotalShare, WeightOf, Propagate;
    var voter := s.voters[v];
    var weight := WeightOf(s, voter);
    var s0 := Activated(s, v);
    if voter.lastWeight > 0 && voter.proxy != NO_NAME {
      PropagateClock(AddProxied(s0, voter.proxy, -voter.lastWeight), voter.proxy);
    }
    var s1 := WithdrawWeight(s0, v).value;
    if proxy != NO_NAME && weight >= 0 {
      PropagateClock(AddProxied(s1, proxy, weight), proxy);
    }
    var s2 := GrantWeight(s1, proxy, weight, voting).value;
    var (s3, tab) := ApplyDeltas(s2, Deltas(voter, proxy, producers, weight), voting, Tab(0, 0)).value;
    TotalsOnly(s3, tab);
  }

  lemma ClockKept(s: PayState, a: Action)
    requires Acyclic(Edges(s.votes.voters)) && Exec(s, a).Ok?
    ensures Exec(s, a).value.votes.now >= s.votes.now
  {
    hide Acyclic, Edges, UpdateVotes, Propagate, UpdateShare, VotePayment, NewTokens, BlockPay, PayIf;
    match a
    case Vote(voter, proxy, names) => UpdateVotesClock(s.votes, voter, proxy, names, true);
    case RegProxy(voter, isProxy) =>
      if voter in s.votes.voters {
        PropagateClock(Registered(s.votes, voter, isProxy), voter);
      }
    case Stake(voter, delta) =>
      var s1 := Staked(s.votes, voter, delta);
      var row := s1.voters[voter];
      if |row.producers| > 0 || row.proxy != NO_NAME {
        UpdateVotesClock(s1, voter, row.proxy, row.producers, false);
      }
    case _ =>
  }

  // ---------- runs ----------

  /** No action of the run drives counted votes below zero. */
  ghost predicate SustainedRun(genesis: PayState, actions: seq<Action>)
    requires Proxies(genesis.votes.voters)
  {
    actions == [] ||
    var rest, a := actions[..|actions| - 1], actions[|actions| - 1];
    var s := Run(genesis, rest);
    && SustainedRun(genesis, rest)
    && (ProxiesAcyclic(s.votes.voters); Exec(s, a).Ok? ==> SustainedAction(s.votes, a))
  }

  /** The lazy accounting is exact, whatever changes of weight were dropped: in every state of a
      run that drives no counted votes below zero, the global rate is the sum of the counted votes,
      the global share the sum of the up-to-date shares, and uncounted shares are zero. */
  lemma {:induction false} VotePayExact(genesis: PayState, actions: seq<Action>)
    requires Initial(genesis) && Proxies(genesis.votes.voters) && SustainedRun(genesis, actions)
    ensures var v := Run(genesis, actions).votes;
      && VotePay(v, Tab(0, 0)) && v.now > 0
      && v.shareRate == SumOf(v.producers, CountedVotes)
      && v.totalShare + v.shareRate * (v.now - v.lastVpay) == SumOf(v.producers, SharesAt(v.now))
      && (forall q | q in v.producers && !Counted(v.producers[q]) :: v.producers[q].share == 0)
  {
    hide Exec, SumOf, SustainedAction, Acyclic, Proxies, Edges, VotePay;
    if actions == [] {
      InitialPay(genesis.votes);
    } else {
      var rest, a := actions[..|actions| - 1], actions[|actions| - 1];
      VotePayExact(genesis, rest);
      var s := Run(genesis, rest);
      ProxiesAcyclic(s.votes.voters);
      if Exec(s, a).Ok? {
        ExecPay(s, a);
      }
    }
    VotePayMeans(Run(genesis, actions).votes);
  }

  lemma VotePayMeans(v: VoteState)
    requires VotePay(v, Tab(0, 0))
    ensures v.shareRate == SumOf(v.producers, CountedVotes)
    ensures v.totalShare + v.shareRate * (v.now - v.lastVpay) == SumOf(v.producers, SharesAt(v.now))
    ensures forall q | q in v.producers && !Counted(v.producers[q]) :: v.producers[q].share == 0
  {
    hide SumOf;
  }
}
