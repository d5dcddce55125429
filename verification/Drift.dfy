/** How far tallies drift from the sums they stand for, in any run whatever: by no more than what was
    dropped, clamped or cast with a negative weight. */
module Drift {
  import opened Basics
  import opened Tables
  import opened Voting
  import opened VotingInvariant
  import opened VotingProofs
  import opened VoteCast
  import opened ProducerPay
  import opened ProxyGraph
  import opened VotePayRuns

  // ---------- gaps ----------

  function Received(s: VoteState, p: Name): int {
    if p in s.voters then s.voters[p].proxied else 0
  }

  function Polled(s: VoteState, q: Name): int {
    if q in s.producers then s.producers[q].votes else 0
  }

  /** What a proxy holds beyond the weight of its users. */
  ghost function ProxyGap(s: VoteState, p: Name): int {
    Received(s, p) - SumOf(s.voters, LastTo(p))
  }

  /** What a producer holds beyond the weight of its direct voters. */
  ghost function PollGap(s: VoteState, q: Name): int {
    Polled(s, q) - SumOf(s.voters, DirectTo(q))
  }

  predicate Near(a: int, b: int, k: int) {
    Abs(a - b) <= k
  }

  /** Replacing one voter's row. */
  lemma RowGaps(s: VoteState, s1: VoteState, v: Name, row: Voter, p: Name)
    requires v in s.voters && s1.voters == s.voters[v := row]
    requires Polled(s1, p) == Polled(s, p)
    ensures ProxyGap(s1, p) == ProxyGap(s, p) - (LastTo(p)(row) - LastTo(p)(s.voters[v]))
                               + (if p == v then row.proxied - s.voters[v].proxied else 0)
    ensures PollGap(s1, p) == PollGap(s, p) - (DirectTo(p)(row) - DirectTo(p)(s.voters[v]))
  {
    hide SumOf, LastTo, DirectTo;
    SumStore(s.voters, LastTo(p), v, row);
    SumStore(s.voters, DirectTo(p), v, row);
  }

  /** A row that keeps its proxy, list, weight and what it received. */
  lemma QuietRow(s: VoteState, s1: VoteState, v: Name, row: Voter, p: Name)
    requires v in s.voters && s1 == s.(voters := s.voters[v := row])
    requires var was := s.voters[v];
      row.proxy == was.proxy && row.producers == was.producers && row.lastWeight == was.lastWeight
        && row.proxied == was.proxied
    ensures ProxyGap(s1, p) == ProxyGap(s, p) && PollGap(s1, p) == PollGap(s, p)
  {
    hide SumOf;
    RowGaps(s, s1, v, row, p);
  }

  lemma AddProxiedGaps(s: VoteState, q: Name, d: int, p: Name)
    requires q in s.voters
    ensures ProxyGap(AddProxied(s, q, d), p) == ProxyGap(s, p) + (if p == q then d else 0)
    ensures PollGap(AddProxied(s, q, d), p) == PollGap(s, p)
  {
    hide SumOf;
    RowGaps(s, AddProxied(s, q, d), q, s.voters[q].(proxied := s.voters[q].proxied + d), p);
  }

  lemma SetWeightGaps(s: VoteState, v: Name, w: int, p: Name)
    requires v in s.voters
    ensures var row := s.voters[v]; var s1 := SetWeight(s, v, w);
      && ProxyGap(s1, p) == ProxyGap(s, p) - (if row.proxy == p && p != NO_NAME then w - row.lastWeight else 0)
      && PollGap(s1, p) == PollGap(s, p)
          - (if row.proxy == NO_NAME && p in row.producers then w - row.lastWeight else 0)
  {
    hide SumOf;
    RowGaps(s, SetWeight(s, v, w), v, s.voters[v].(lastWeight := w), p);
  }

  // ---------- propagation ----------

  /** Whether a propagation ends at somebody who supports others, by dropping a change of one unit. */
  ghost function Drops(s: VoteState, v: Name): (k: nat)
    requires Acyclic(Edges(s.voters)) && v in s.voters
    ensures k <= 1
    decreases Height(Edges(s.voters), v)
  {
    var voter := s.voters[v];
    var d := WeightOf(s, voter) - voter.lastWeight;
    if !Noticeable(d) then if d == 0 || (voter.proxy == NO_NAME && voter.producers == []) then 0 else 1
    else if voter.proxy != NO_NAME && voter.proxy in s.voters then
      HeightFalls(Edges(s.voters), v);
      Drops(AddProxied(s, voter.proxy, d), voter.proxy)
    else 0
  }

  lemma DropsStep(s: VoteState, v: Name, w: int, d: int)
    requires Acyclic(Edges(s.voters)) && Finds(s, v, w, d)
    ensures !Noticeable(d) ==>
      && Abs(d) <= 1
      && Drops(s, v) == if d == 0 || (s.voters[v].proxy == NO_NAME && s.voters[v].producers == []) then 0 else 1
    ensures Noticeable(d) && s.voters[v].proxy != NO_NAME && s.voters[v].proxy in s.voters ==>
      Drops(s, v) == Drops(AddProxied(s, s.voters[v].proxy, d), s.voters[v].proxy)
    ensures Noticeable(d) && s.voters[v].proxy == NO_NAME ==> Drops(s, v) == 0
  {
    hide Acyclic, AddProxied, WeightOf, Edges;
  }

  /** It drops nothing exactly if it is clean. */
  lemma {:induction false} DropsMean(s: VoteState, v: Name)
    requires Acyclic(Edges(s.voters)) && v in s.voters
    ensures Drops(s, v) == 0 <==> Clean(s, v)
    decreases Height(Edges(s.voters), v)
  {
    hide Acyclic, AddProxied, WeightOf, Noticeable, Edges, Height;
    var voter := s.voters[v];
    var d := WeightOf(s, voter) - voter.lastWeight;
    if Noticeable(d) && voter.proxy != NO_NAME && voter.proxy in s.voters {
      ProxyHigher(s, v);
      DropsMean(AddProxied(s, voter.proxy, d), voter.proxy);
    }
  }

  /** Rows off the chain above `v` stay as they are. */
  ghost predicate OffChain(s: VoteState, s1: VoteState, v: Name)
    requires Acyclic(Edges(s.voters))
  {
    forall u | u in s.voters && u in s1.voters && u != v && !OnChain(Edges(s.voters), v, u) ::
      s1.voters[u] == s.voters[u]
  }

  lemma {:induction false} PropagateFrame(s: VoteState, v: Name)
    requires Acyclic(Edges(s.voters)) && v in s.voters && Propagate(s, v).Ok?
    ensures OffChain(s, Propagate(s, v).value, v)
    decreases Height(Edges(s.voters), v)
  {
    hide Acyclic, WeightOf, Spread, UpdateTotalShare, Propagate, Height, Edges, Noticeable, OnChain, AddProxied,
         SetWeight;
    var voter := s.voters[v];
    var w := WeightOf(s, voter);
    var d := w - voter.lastWeight;
    if !Noticeable(d) {
      PropagateDropped(s, v, w, d);
      SetWeightOnly(s, v, w);
    } else if voter.proxy != NO_NAME {
      PropagatePassed(s, v, w, d);
      ProxyHigher(s, v);
      var q := voter.proxy;
      var s1 := AddProxied(s, q, d);
      PropagateFrame(s1, q);
      var s2 := Propagate(s1, q).value;
      SetWeightOnly(s2, v, w);
      forall u | u in s.voters && u != v && !OnChain(Edges(s.voters), v, u)
        ensures s2.voters[u] == s.voters[u]
      {
        NotAbove(s, v, u);
        AddedOnly(s, q, d, u);
      }
    } else {
      PropagateSpread(s, v, w, d);
      var (s1, tab) := Spread(s, voter.producers, d, Tab(0, 0)).value;
      TotalsKeepVoters(s1, -tab.inactive, tab.rate);
      SetWeightOnly(UpdateTotalShare(s1, -tab.inactive, tab.rate), v, w);
    }
  }

  lemma SetWeightOnly(s: VoteState, v: Name, w: int)
    requires v in s.voters
    ensures SetWeight(s, v, w).voters == s.voters[v := s.voters[v].(lastWeight := w)]
    ensures SetWeight(s, v, w) == s.(voters := SetWeight(s, v, w).voters)
  {
  }

  lemma AddedOnly(s: VoteState, q: Name, d: int, u: Name)
    requires q in s.voters && u in s.voters && u != q
    ensures AddProxied(s, q, d).voters[u] == s.voters[u]
  {
  }

  lemma NotAbove(s: VoteState, v: Name, u: Name)
    requires Acyclic(Edges(s.voters)) && v in s.voters && s.voters[v].proxy != NO_NAME
    requires !OnChain(Edges(s.voters), v, u)
    ensures u != s.voters[v].proxy && !OnChain(Edges(s.voters), s.voters[v].proxy, u)
  {
    EdgeTo(s.voters, v);
  }

  /** A voter's own row, and its place, through the propagation above it. */
  lemma UserUntouched(s: VoteState, v: Name, d: int)
    requires Acyclic(Edges(s.voters)) && v in s.voters && s.voters[v].proxy != NO_NAME && s.voters[v].proxy in s.voters
    requires Propagate(AddProxied(s, s.voters[v].proxy, d), s.voters[v].proxy).Ok?
    ensures var s2 := Propagate(AddProxied(s, s.voters[v].proxy, d), s.voters[v].proxy).value;
      v in s2.voters && s2.voters[v] == s.voters[v]
  {
    hide Acyclic, Propagate, OnChain, Edges;
    EdgeTo(s.voters, v);
    ProxyAboveUser(Edges(s.voters), v);
    PropagateFrame(AddProxied(s, s.voters[v].proxy, d), s.voters[v].proxy);
  }

  /** A propagation moves no tally away from its sum by more than the unit it may drop. */
  lemma {:induction false} PropagateDrift(s: VoteState, v: Name, p: Name)
    requires Acyclic(Edges(s.voters)) && Proxies(s.voters) && v in s.voters && Propagate(s, v).Ok?
    ensures var s1 := Propagate(s, v).value;
      Near(ProxyGap(s1, p), ProxyGap(s, p), Drops(s, v)) && Near(PollGap(s1, p), PollGap(s, p), Drops(s, v))
    decreases Height(Edges(s.voters), v)
  {
    hide Acyclic, WeightOf, Spread, UpdateTotalShare, Proxies, Ascending, Propagate, Height, Edges, Noticeable,
         Drops, ProxyGap, PollGap, AddProxied, SetWeight, SameShape;
    var voter := s.voters[v];
    var w := WeightOf(s, voter);
    var d := w - voter.lastWeight;
    DropsStep(s, v, w, d);
    if !Noticeable(d) {
      PropagateDropped(s, v, w, d);
      SetWeightGaps(s, v, w, p);
    } else if voter.proxy != NO_NAME {
      PropagatePassed(s, v, w, d);
      ProxyHigher(s, v);
      var q := voter.proxy;
      var s1 := AddProxied(s, q, d);
      AddProxiedGaps(s, q, d, p);
      AddProxiedShape(s, q, d);
      ShapeKeepsProxies(s.voters, s1.voters);
      PropagateDrift(s1, q, p);
      UserUntouched(s, v, d);
      SetWeightGaps(Propagate(s1, q).value, v, w, p);
    } else {
      PropagateSpread(s, v, w, d);
      assert Ascending(voter.producers) by { ListOf(s.voters, v); }
      SpreadGaps(s, voter.producers, d, p);
      var (s1, tab) := Spread(s, voter.producers, d, Tab(0, 0)).value;
      TotalsGaps(s1, -tab.inactive, tab.rate, p);
      SetWeightGaps(UpdateTotalShare(s1, -tab.inactive, tab.rate), v, w, p);
    }
  }

  lemma SpreadGaps(s: VoteState, names: seq<Name>, d: int, p: Name)
    requires Ascending(names) && Spread(s, names, d, Tab(0, 0)).Ok?
    ensures var s1 := Spread(s, names, d, Tab(0, 0)).value.0;
      && s1.voters == s.voters
      && ProxyGap(s1, p) == ProxyGap(s, p) && PollGap(s1, p) == PollGap(s, p) + (if p in names then d else 0)
  {
    hide SumOf, Ascending, Spread;
    SpreadLeaves(s, names, d, Tab(0, 0));
  }

  lemma TotalsGaps(s: VoteState, share: int, rate: int, p: Name)
    ensures var s1 := UpdateTotalShare(s, share, rate);
      s1.voters == s.voters && ProxyGap(s1, p) == ProxyGap(s, p) && PollGap(s1, p) == PollGap(s, p)
  {
    hide SumOf;
  }

  // ---------- users of proxies weigh something ----------

  /** Whoever uses a proxy last cast a weight that is not negative. */
  predicate UsersWeigh(voters: map<Name, Voter>) {
    forall v | v in voters && voters[v].proxy != NO_NAME :: voters[v].lastWeight >= 0
  }

  lemma {:induction false} PropagateUsers(s: VoteState, v: Name)
    requires Acyclic(Edges(s.voters)) && Proxies(s.voters) && v in s.voters && Propagate(s, v).Ok?
    requires UsersWeigh(s.voters)
    ensures UsersWeigh(Propagate(s, v).value.voters)
    decreases Height(Edges(s.voters), v)
  {
    hide Acyclic, WeightOf, Spread, UpdateTotalShare, Proxies, Propagate, Height, Edges, Noticeable, SetWeight,
         SameShape;
    var voter := s.voters[v];
    var w := WeightOf(s, voter);
    var d := w - voter.lastWeight;
    assert voter.proxy != NO_NAME ==> w >= 0 by { UserWeight(s, v); }
    if !Noticeable(d) {
      PropagateDropped(s, v, w, d);
      SetWeightOnly(s, v, w);
    } else if voter.proxy != NO_NAME {
      PropagatePassed(s, v, w, d);
      ProxyHigher(s, v);
      var s1 := AddProxied(s, voter.proxy, d);
      AddProxiedShape(s, voter.proxy, d);
      ShapeKeepsProxies(s.voters, s1.voters);
      PropagateUsers(s1, voter.proxy);
      SetWeightOnly(Propagate(s1, voter.proxy).value, v, w);
    } else {
      PropagateSpread(s, v, w, d);
      var (s1, tab) := Spread(s, voter.producers, d, Tab(0, 0)).value;
      TotalsKeepVoters(s1, -tab.inactive, tab.rate);
      SetWeightOnly(UpdateTotalShare(s1, -tab.inactive, tab.rate), v, w);
    }
  }

  lemma UserWeight(s: VoteState, v: Name)
    requires Proxies(s.voters) && v in s.voters
    ensures s.voters[v].proxy != NO_NAME ==> WeightOf(s, s.voters[v]) >= 0
  {
  }

  // ---------- votes ----------

  /** What is missed: changes of one unit that were dropped, and weight that was lost to a clamp, to a
      producer without a row, or to a negative weight, which is neither given nor taken back. */
  datatype Missed = Missed(drops: nat, lost: nat)

  function Both(a: Missed, b: Missed): Missed {
    Missed(a.drops + b.drops, a.lost + b.lost)
  }

  const NOTHING: Missed := Missed(0, 0)

  ghost function WithdrawalDrops(s: VoteState, v: Name): (k: nat)
    requires Acyclic(Edges(s.voters)) && v in s.voters
    ensures k <= 1
  {
    var voter := s.voters[v];
    if voter.lastWeight > 0 && voter.proxy != NO_NAME && voter.proxy in s.voters then
      Drops(AddProxied(s, voter.proxy, -voter.lastWeight), voter.proxy)
    else 0
  }

  ghost function GrantDrops(s: VoteState, proxy: Name, weight: int): (k: nat)
    requires Acyclic(Edges(s.voters))
    ensures k <= 1
  {
    if proxy != NO_NAME && proxy in s.voters && weight >= 0 then Drops(AddProxied(s, proxy, weight), proxy) else 0
  }

  /** What one change of a vote does not reach: it is clamped, or finds no row. */
  function Lost(s: VoteState, q: Name, amount: int): nat {
    if q in s.producers then Max(0, -(s.producers[q].votes + amount)) else Abs(amount)
  }

  function Losses(s: VoteState, deltas: map<Name, Delta>): map<Name, nat> {
    map q | q in deltas :: Lost(s, q, deltas[q].amount)
  }

  function Amounts(n: nat): int { n }

  ghost function LostSum(s: VoteState, deltas: map<Name, Delta>): (k: nat)
    ensures k == SumOf(Losses(s, deltas), Amounts)
  {
    SumNonNegative<Name, nat>(Losses(s, deltas), Amounts);
    SumOf(Losses(s, deltas), Amounts)
  }

  function Negative(weight: int): nat {
    Max(0, -weight)
  }

  /** What a vote misses. */
  ghost function VoteMisses(s: VoteState, v: Name, proxy: Name, producers: seq<Name>, voting: bool): Missed
    requires Acyclic(Edges(s.voters)) && UpdateVotes(s, v, proxy, producers, voting).Ok?
  {
    UpdateVotesStages(s, v, proxy, producers, voting);
    var voter := s.voters[v];
    var s0 := Activated(s, v);
    var weight := WeightOf(s, voter);
    var s1 := WithdrawWeight(s0, v).value;
    var s2 := GrantWeight(s1, proxy, weight, voting).value;
    Missed(WithdrawalDrops(s0, v) + GrantDrops(s1, proxy, weight),
           Negative(voter.lastWeight) + Negative(weight) + LostSum(s2, Deltas(voter, proxy, producers, weight)))
  }

  lemma WithdrawDrift(s: VoteState, v: Name, p: Name)
    requires Acyclic(Edges(s.voters)) && Proxies(s.voters) && v in s.voters && UsersWeigh(s.voters)
    requires WithdrawWeight(s, v).Ok?
    ensures var s1 := WithdrawWeight(s, v).value; var voter := s.voters[v];
      && v in s1.voters && s1.voters[v] == voter && UsersWeigh(s1.voters)
      && Near(ProxyGap(s1, p), ProxyGap(s, p) - (if p == voter.proxy && p != NO_NAME then voter.lastWeight else 0),
          WithdrawalDrops(s, v))
      && Near(PollGap(s1, p), PollGap(s, p), WithdrawalDrops(s, v))
  {
    hide Acyclic, Propagate, Drops, Proxies, ProxyGap, PollGap, AddProxied, Edges;
    var voter := s.voters[v];
    if voter.lastWeight > 0 && voter.proxy != NO_NAME {
      var q, d := voter.proxy, -voter.lastWeight;
      var s1 := AddProxied(s, q, d);
      AddProxiedGaps(s, q, d, p);
      AddProxiedShape(s, q, d);
      ShapeKeepsProxies(s.voters, s1.voters);
      AddedUsers(s, q, d);
      PropagateDrift(s1, q, p);
      PropagateUsers(s1, q);
      UserUntouched(s, v, d);
    }
  }

  lemma AddedUsers(s: VoteState, q: Name, d: int)
    requires q in s.voters && UsersWeigh(s.voters)
    ensures UsersWeigh(AddProxied(s, q, d).voters)
  {
  }

  lemma GrantDrift(s: VoteState, v: Name, proxy: Name, weight: int, voting: bool, p: Name)
    requires Acyclic(Edges(s.voters)) && Proxies(s.voters) && v in s.voters && UsersWeigh(s.voters)
    requires GrantWeight(s, proxy, weight, voting).Ok?
    requires proxy != NO_NAME ==> proxy != v && weight >= 0 && (voting || proxy == s.voters[v].proxy)
    ensures var s1 := GrantWeight(s, proxy, weight, voting).value;
      && v in s1.voters && s1.voters[v] == s.voters[v] && UsersWeigh(s1.voters)
      && Near(ProxyGap(s1, p), ProxyGap(s, p) + (if p == proxy && p != NO_NAME then weight else 0),
          GrantDrops(s, proxy, weight))
      && Near(PollGap(s1, p), PollGap(s, p), GrantDrops(s, proxy, weight))
  {
    hide Acyclic, Propagate, Drops, Proxies, ProxyGap, PollGap, Edges, OnChain;
    if proxy != NO_NAME {
      var s1 := AddProxied(s, proxy, weight);
      AddProxiedGaps(s, proxy, weight, p);
      AddProxiedShape(s, proxy, weight);
      ShapeKeepsProxies(s.voters, s1.voters);
      AddedUsers(s, proxy, weight);
      PropagateDrift(s1, proxy, p);
      PropagateUsers(s1, proxy);
      PropagateFrame(s1, proxy);
      NotOnGrant(s, v, proxy);
    }
  }

  /** The voter is not on the chain of the proxy it chooses. */
  lemma NotOnGrant(s: VoteState, v: Name, proxy: Name)
    requires Acyclic(Edges(s.voters)) && Proxies(s.voters) && v in s.voters && proxy in s.voters && proxy != NO_NAME
    requires proxy == s.voters[v].proxy || s.voters[proxy].isProxy
    ensures !OnChain(Edges(s.voters), proxy, v)
  {
    hide Acyclic;
    if proxy == s.voters[v].proxy {
      EdgeTo(s.voters, v);
      ProxyAboveUser(Edges(s.voters), v);
    } else {
      assert s.voters[proxy].proxy == NO_NAME;
      assert proxy !in Edges(s.voters);
    }
  }

  /** What a vote's changes come to for one producer: the new support less the old, but for negative
      weights. */
  lemma AmountMeans(voter: Voter, proxy: Name, producers: seq<Name>, weight: int, q: Name)
    requires Ascending(voter.producers) && Ascending(producers)
    requires (voter.proxy != NO_NAME ==> voter.producers == []) && (proxy != NO_NAME ==> producers == [])
    ensures Near(Amount(Deltas(voter, proxy, producers, weight), q),
      DirectTo(q)(CastRow(voter, proxy, producers, weight)) - DirectTo(q)(voter),
      Negative(voter.lastWeight) + Negative(weight))
  {
    hide Ascending;
    var taken := if voter.lastWeight > 0 && voter.proxy == NO_NAME
                 then AddDeltas(map[], voter.producers, -voter.lastWeight, false) else map[];
    if voter.lastWeight > 0 && voter.proxy == NO_NAME {
      AddDeltasMean(map[], voter.producers, -voter.lastWeight, false);
    }
    if proxy == NO_NAME && weight >= 0 {
      AddDeltasMean(taken, producers, weight, true);
    }
  }

  /** The producer loop and the voter's new row. */
  lemma LoopDrift(s: VoteState, v: Name, proxy: Name, producers: seq<Name>, weight: int, voting: bool, s1: VoteState,
      p: Name)
    requires v in s.voters && Ascending(s.voters[v].producers) && Ascending(producers)
    requires (s.voters[v].proxy != NO_NAME ==> s.voters[v].producers == []) && (proxy != NO_NAME ==> producers == [])
    requires ApplyDeltas(s, Deltas(s.voters[v], proxy, producers, weight), voting, Tab(0, 0)).Ok?
    requires var s3 := ApplyDeltas(s, Deltas(s.voters[v], proxy, producers, weight), voting, Tab(0, 0)).value.0;
      s1.producers == s3.producers && s1.voters == s.voters[v := CastRow(s.voters[v], proxy, producers, weight)]
    ensures var voter := s.voters[v];
      && ProxyGap(s1, p) == ProxyGap(s, p) + (if p == voter.proxy && p != NO_NAME then voter.lastWeight else 0)
                            - (if p == proxy && p != NO_NAME then weight else 0)
      && Near(PollGap(s1, p), PollGap(s, p), Negative(voter.lastWeight) + Negative(weight)
                                             + LostSum(s, Deltas(voter, proxy, producers, weight)))
  {
    hide SumOf, ApplyDeltas, Deltas, Ascending, DirectTo, VoteRows;
    var voter := s.voters[v];
    var row := CastRow(voter, proxy, producers, weight);
    var deltas := Deltas(voter, proxy, producers, weight);
    LoopLeaves(s, deltas, voting, Tab(0, 0));
    LoopPolls(s, s1, deltas, p);
    AmountMeans(voter, proxy, producers, weight, p);
    SumStore(s.voters, LastTo(p), v, row);
    SumStore(s.voters, DirectTo(p), v, row);
  }

  lemma LoopPolls(s: VoteState, s1: VoteState, deltas: map<Name, Delta>, q: Name)
    requires s1.producers == VoteRows(s, deltas)
    ensures Near(Polled(s1, q), Polled(s, q) + Amount(deltas, q), LostSum(s, deltas))
  {
    hide SumOf;
    if q in deltas {
      SumBoundsRow<Name, nat>(Losses(s, deltas), Amounts, q);
    }
  }

  /** A vote moves no proxy's tally away from its sum by more than it drops, and no producer's by more
      than it misses. */
  lemma UpdateVotesDrift(s: VoteState, v: Name, proxy: Name, producers: seq<Name>, voting: bool, p: Name)
    requires Acyclic(Edges(s.voters)) && Proxies(s.voters) && UsersWeigh(s.voters)
    requires UpdateVotes(s, v, proxy, producers, voting).Ok?
    requires v in s.voters && !voting ==> proxy == s.voters[v].proxy
    ensures var s1 := UpdateVotes(s, v, proxy, producers, voting).value;
      var missed := VoteMisses(s, v, proxy, producers, voting);
      && UsersWeigh(s1.voters)
      && Near(ProxyGap(s1, p), ProxyGap(s, p), missed.drops)
      && Near(PollGap(s1, p), PollGap(s, p), missed.drops + missed.lost)
  {
    hide Acyclic, Edges, WithdrawWeight, GrantWeight, ApplyDeltas, Deltas, UpdateVotes, Cast, WeightOf, Proxies,
         SameShape, WithdrawalDrops, GrantDrops, LostSum, ProxyGap, PollGap, Ascending, UsersWeigh;
    UpdateVotesStages(s, v, proxy, producers, voting);
    var voter := s.voters[v];
    var weight := WeightOf(s, voter);
    var s0 := Activated(s, v);
    ActivationGaps(s, s0, p);
    WithdrawShape(s0, v);
    WithdrawDrift(s0, v, p);
    var s1 := WithdrawWeight(s0, v).value;
    ShapeKeepsProxies(s0.voters, s1.voters);
    if proxy != NO_NAME {
      NoProxyWeight(s, voter);
    }
    GrantDrift(s1, v, proxy, weight, voting, p);
    var s2 := GrantWeight(s1, proxy, weight, voting).value;
    var s5 := UpdateVotes(s, v, proxy, producers, voting).value;
    ListOf(s.voters, v);
    ListEmpty(s.voters, v);
    CastLeaves(s2, v, proxy, producers, weight, voting);
    LoopDrift(s2, v, proxy, producers, weight, voting, s5, p);
    NewUser(s2.voters, v, CastRow(voter, proxy, producers, weight));
  }

  lemma NewUser(voters: map<Name, Voter>, v: Name, row: Voter)
    requires UsersWeigh(voters) && (row.proxy != NO_NAME ==> row.lastWeight >= 0)
    ensures UsersWeigh(voters[v := row])
  {
  }

  lemma ActivationGaps(s: VoteState, s0: VoteState, p: Name)
    requires s0 == s.(totalActivated := s0.totalActivated)
    ensures ProxyGap(s0, p) == ProxyGap(s, p) && PollGap(s0, p) == PollGap(s, p)
  {
    hide SumOf;
  }

  lemma NoProxyWeight(s: VoteState, voter: Voter)
    requires !voter.isProxy
    ensures WeightOf(s, voter) >= 0
  {
  }

  lemma ListEmpty(voters: map<Name, Voter>, v: Name)
    requires Proxies(voters) && v in voters
    ensures voters[v].proxy != NO_NAME ==> voters[v].producers == []
  {
  }

  lemma CastLeaves(s: VoteState, v: Name, proxy: Name, producers: seq<Name>, weight: int, voting: bool)
    requires v in s.voters && Cast(s, v, proxy, producers, weight, voting).Ok?
    ensures ApplyDeltas(s, Deltas(s.voters[v], proxy, producers, weight), voting, Tab(0, 0)).Ok?
    ensures var s3 := ApplyDeltas(s, Deltas(s.voters[v], proxy, producers, weight), voting, Tab(0, 0)).value.0;
      var s1 := Cast(s, v, proxy, producers, weight, voting).value;
      s1.producers == s3.producers && s1.voters == s.voters[v := CastRow(s.voters[v], proxy, producers, weight)]
  {
    hide ApplyDeltas, Deltas, UpdateTotalShare;
    var (s3, tab) := ApplyDeltas(s, Deltas(s.voters[v], proxy, producers, weight), voting, Tab(0, 0)).value;
    TotalsKeepVoters(s3, -tab.inactive, tab.rate);
  }

  // ---------- the other actions ----------

  lemma RegisterProxyDrift(s: VoteState, v: Name, isProxy: bool, p: Name)
    requires Acyclic(Edges(s.voters)) && Proxies(s.voters) && UsersWeigh(s.voters) && RegisterProxy(s, v, isProxy).Ok?
    ensures var s1 := RegisterProxy(s, v, isProxy).value;
      var drops := if v in s.voters then Drops(Registered(s, v, isProxy), v) else 0;
      UsersWeigh(s1.voters)
      && Near(ProxyGap(s1, p), ProxyGap(s, p), drops) && Near(PollGap(s1, p), PollGap(s, p), drops)
  {
    hide Acyclic, Propagate, Drops, Proxies, ProxyGap, PollGap;
    if v in s.voters {
      var s1 := Registered(s, v, isProxy);
      if s.voters[v].proxy != NO_NAME {
        ProxyUsers(s.voters, v);
      }
      RowProxies(s.voters, v, s1.voters[v]);
      QuietRow(s, s1, v, s1.voters[v], p);
      PropagateDrift(s1, v, p);
      PropagateUsers(s1, v);
    } else {
      NewVoterGaps(s, v, 0, isProxy, p);
    }
  }

  lemma NewVoterGaps(s: VoteState, v: Name, staked: int, isProxy: bool, p: Name)
    requires Proxies(s.voters) && v !in s.voters
    ensures var s1 := s.(voters := s.voters[v := Voter(v, NO_NAME, [], staked, 0, 0, isProxy)]);
      ProxyGap(s1, p) == ProxyGap(s, p) && PollGap(s1, p) == PollGap(s, p)
  {
    hide SumOf, LastTo, DirectTo, Proxies;
    NewVoterSums(s, v, Voter(v, NO_NAME, [], staked, 0, 0, isProxy));
  }

  /** What a stake change misses by refreshing the vote. */
  ghost function StakeMisses(s: VoteState, v: Name, delta: int): Missed
    requires Acyclic(Edges(s.voters)) && ChangeStake(s, v, delta).Ok?
  {
    var s1 := Staked(s, v, delta);
    var row := s1.voters[v];
    if |row.producers| > 0 || row.proxy != NO_NAME then VoteMisses(s1, v, row.proxy, row.producers, false) else NOTHING
  }

  lemma ChangeStakeDrift(s: VoteState, v: Name, delta: int, p: Name)
    requires Acyclic(Edges(s.voters)) && Proxies(s.voters) && UsersWeigh(s.voters) && ChangeStake(s, v, delta).Ok?
    ensures var s1 := ChangeStake(s, v, delta).value; var missed := StakeMisses(s, v, delta);
      && UsersWeigh(s1.voters)
      && Near(ProxyGap(s1, p), ProxyGap(s, p), missed.drops)
      && Near(PollGap(s1, p), PollGap(s, p), missed.drops + missed.lost)
  {
    hide Acyclic, UpdateVotes, VoteMisses, Proxies, Edges, ProxyGap, PollGap;
    var s1 := Staked(s, v, delta);
    var row := s1.voters[v];
    if v in s.voters {
      if row.proxy != NO_NAME {
        ProxyUsers(s.voters, v);
      }
      QuietRow(s, s1, v, row, p);
    } else {
      NewVoterGaps(s, v, delta, false, p);
    }
    RowProxies(s.voters, v, row);
    if |row.producers| > 0 || row.proxy != NO_NAME {
      UpdateVotesDrift(s1, v, row.proxy, row.producers, false, p);
    }
  }

  lemma SyncStakeGaps(s: VoteState, v: Name, delta: int, p: Name)
    requires UsersWeigh(s.voters)
    ensures UsersWeigh(SyncStake(s, v, delta).voters)
    ensures ProxyGap(SyncStake(s, v, delta), p) == ProxyGap(s, p) && PollGap(SyncStake(s, v, delta), p) == PollGap(s, p)
  {
    hide ProxyGap, PollGap;
    if v in s.voters {
      QuietRow(s, SyncStake(s, v, delta), v, s.voters[v].(staked := s.voters[v].staked + delta), p);
    }
  }

  /** Actions of producers, blocks and time: no voter's row and no producer's votes change. */
  lemma SamePolls(s: VoteState, s1: VoteState, p: Name)
    requires s1.voters == s.voters && Polled(s1, p) == Polled(s, p)
    ensures ProxyGap(s1, p) == ProxyGap(s, p) && PollGap(s1, p) == PollGap(s, p)
  {
    hide SumOf;
  }

  lemma ClaimPolls(s: PayState, owner: Name, p: Name)
    requires ClaimRewards(s, owner).Ok?
    ensures var s1 := ClaimRewards(s, owner).value;
      s1.votes.voters == s.votes.voters && Polled(s1.votes, p) == Polled(s.votes, p)
  {
    hide UpdateTotalShare, NewTokens, BlockPay, VotePayment, PayIf;
    ClaimKeepsVoters(s, owner);
    var s1 := FillBuckets(s).value;
    TotalsKeepVoters(s1.votes, 0, 0);
    var q := s1.votes.producers[owner];
    var updatedAfter := q.lastClaim + THREE_DAYS <= q.lastUpdate;
    var share := UpdateShare(q, s1.votes.now, if updatedAfter then 0 else q.votes, true).1;
    var v1 := if s1.revision > 0 then UpdateTotalShare(s1.votes, 0, 0) else s1.votes;
    TotalsKeepVoters(v1, -share, if updatedAfter then q.votes else 0);
  }

  // ---------- whole actions and runs ----------

  /** What an action misses. */
  ghost function ActionMisses(s: VoteState, a: Action): Missed
    requires Acyclic(Edges(s.voters))
  {
    match a
    case Vote(voter, proxy, names) =>
      if UpdateVotes(s, voter, proxy, names, true).Ok? then VoteMisses(s, voter, proxy, names, true) else NOTHING
    case RegProxy(voter, isProxy) =>
      if voter in s.voters then Missed(Drops(Registered(s, voter, isProxy), voter), 0) else NOTHING
    case Stake(voter, delta) => if ChangeStake(s, voter, delta).Ok? then StakeMisses(s, voter, delta) else NOTHING
    case _ => NOTHING
  }

  lemma ExecDrift(s: PayState, a: Action, p: Name)
    requires Acyclic(Edges(s.votes.voters)) && Proxies(s.votes.voters) && UsersWeigh(s.votes.voters) && Exec(s, a).Ok?
    ensures var v1 := Exec(s, a).value.votes; var missed := ActionMisses(s.votes, a);
      && UsersWeigh(v1.voters)
      && Near(ProxyGap(v1, p), ProxyGap(s.votes, p), missed.drops)
      && Near(PollGap(v1, p), PollGap(s.votes, p), missed.drops + missed.lost)
  {
    hide Acyclic, Edges, Proxies, UpdateVotes, RegisterProxy, ChangeStake, ClaimRewards, SyncStake, UsersWeigh,
         VoteMisses, StakeMisses, Drops, ProxyGap, PollGap;
    match a
    case Vote(voter, proxy, names) => UpdateVotesDrift(s.votes, voter, proxy, names, true, p);
    case RegProxy(voter, isProxy) => RegisterProxyDrift(s.votes, voter, isProxy, p);
    case Stake(voter, delta) => ChangeStakeDrift(s.votes, voter, delta, p);
    case SyncRexStake(voter, delta) => SyncStakeGaps(s.votes, voter, delta, p);
    case Claim(producer) =>
      ClaimPolls(s, producer, p);
      SamePolls(s.votes, Exec(s, a).value.votes, p);
    case _ => SamePolls(s.votes, Exec(s, a).value.votes, p);
  }

  /** What a run misses, action by action. */
  ghost function RunMisses(genesis: PayState, actions: seq<Action>): Missed
    requires Proxies(genesis.votes.voters)
  {
    if actions == [] then NOTHING
    else
      var rest, a := actions[..|actions| - 1], actions[|actions| - 1];
      var s := Run(genesis, rest);
      ProxiesAcyclic(s.votes.voters);
      Both(RunMisses(genesis, rest), if Exec(s, a).Ok? then ActionMisses(s.votes, a) else NOTHING)
  }

  /** In every run, whatever was dropped: each proxy holds the weight of its users to within the number
      of changes that were dropped, and each producer the weight of its direct voters to within that
      number and the weight lost to clamps, missing rows and negative weights. */
  lemma {:induction false} TalliesWithin(genesis: PayState, actions: seq<Action>, p: Name)
    requires Initial(genesis) && Proxies(genesis.votes.voters)
    ensures var v := Run(genesis, actions).votes; var missed := RunMisses(genesis, actions);
      && UsersWeigh(v.voters)
      && Near(Received(v, p), SumOf(v.voters, LastTo(p)), missed.drops)
      && Near(Polled(v, p), SumOf(v.voters, DirectTo(p)), missed.drops + missed.lost)
  {
    hide Exec, ActionMisses, Acyclic, Proxies, Edges, UsersWeigh, SumOf;
    if actions == [] {
      NobodyYet(genesis.votes, p);
    } else {
      var rest, a := actions[..|actions| - 1], actions[|actions| - 1];
      TalliesWithin(genesis, rest, p);
      var s := Run(genesis, rest);
      ProxiesAcyclic(s.votes.voters);
      if Exec(s, a).Ok? {
        ExecDrift(s, a, p);
      }
    }
  }

  lemma NobodyYet(v: VoteState, p: Name)
    requires v.voters == map[] && v.producers == map[]
    ensures UsersWeigh(v.voters) && ProxyGap(v, p) == 0 && PollGap(v, p) == 0
  {
  }
}
