/** Votes, proxies and vote pay: functions of the voter and producer tables. Vote weights are
    exact integers; a vote-pay share counts weight times microseconds. */
module Voting {
  import opened Basics
  import opened Tables

  datatype Voter = Voter(
    owner: Name, proxy: Name, producers: seq<Name>, staked: int, lastWeight: int, proxied: int, isProxy: bool)

  /** A producer's rows in the two producer tables, which are always created together. */
  datatype Producer = Producer(
    votes: int, isActive: bool, unpaidBlocks: nat, lastClaim: nat, share: int, lastUpdate: nat)

  /** `weigh(stake, now)` is the vote weight of a stake at a time. */
  datatype VoteState = VoteState(
    now: nat,
    weigh: (int, nat) -> nat,
    voters: map<Name, Voter>,
    producers: map<Name, Producer>,
    totalActivated: int,
    totalWeight: int,
    totalShare: int,
    shareRate: int,
    lastVpay: nat)

  const THREE_DAYS: nat := 259_200_000_000
  const MAX_PRODUCERS: nat := 30

  // ---------- the proxy graph ----------

  /** Who uses which proxy. */
  function Edges(voters: map<Name, Voter>): map<Name, Name> {
    map v | v in voters && voters[v].proxy != NO_NAME :: voters[v].proxy
  }

  ghost predicate RankOk(edges: map<Name, Name>, rank: map<Name, nat>) {
    forall v | v in edges :: v in rank && edges[v] in rank && rank[edges[v]] < rank[v]
  }

  /** No voter is reached again by following proxies: some rank falls along every edge. */
  ghost predicate Acyclic(edges: map<Name, Name>) {
    exists rank :: RankOk(edges, rank)
  }

  ghost function Height(edges: map<Name, Name>, v: Name): nat
    requires Acyclic(edges)
  {
    var rank :| RankOk(edges, rank);
    if v in rank then rank[v] else 0
  }

  lemma HeightFalls(edges: map<Name, Name>, v: Name)
    requires Acyclic(edges) && v in edges
    ensures Height(edges, edges[v]) < Height(edges, v)
  {
  }

  // ---------- vote pay ----------

  /** What a loop over producers has collected for the global counters. */
  datatype Tab = Tab(rate: int, inactive: int)

  function UpdateTotalShare(s: VoteState, sharesDelta: int, rateDelta: int): VoteState {
    var delta := (if s.now > s.lastVpay then s.shareRate * (s.now - s.lastVpay) else 0) + sharesDelta;
    var share := if delta < 0 && s.totalShare < -delta then 0 else s.totalShare + delta;
    var rate := if rateDelta < 0 && s.shareRate < -rateDelta then 0 else s.shareRate + rateDelta;
    s.(totalShare := share, shareRate := rate, lastVpay := s.now)
  }

  /** The producer's share brought up to date, and the row that stores it or starts over. */
  function UpdateShare(p: Producer, now: nat, rate: int, reset: bool): (Producer, int) {
    var share := p.share + (if rate > 0 && now > p.lastUpdate then rate * (now - p.lastUpdate) else 0);
    (p.(share := if reset then 0 else share, lastUpdate := now), share)
  }

  /** A producer's votes change by `d` to `votes`. */
  function ChangeVotes(s: VoteState, name: Name, votes: int, d: int, tab: Tab): (VoteState, Tab)
    requires name in s.producers
  {
    var p := s.producers[name];
    var crossed := p.lastClaim + THREE_DAYS <= s.now;
    var updatedAfter := p.lastClaim + THREE_DAYS <= p.lastUpdate;
    var (p1, share) := UpdateShare(p.(votes := votes), s.now, if updatedAfter then 0 else p.votes,
      crossed && !updatedAfter);
    var tab1 := if !crossed then tab.(rate := tab.rate + d)
                else if !updatedAfter then Tab(tab.rate - p.votes, tab.inactive + share)
                else tab;
    (s.(producers := s.producers[name := p1], totalWeight := s.totalWeight + d), tab1)
  }

  // ---------- propagation along proxies ----------

  function WeightOf(s: VoteState, v: Voter): int {
    s.weigh(v.staked, s.now) + (if v.isProxy then v.proxied else 0)
  }

  function AddProxied(s: VoteState, proxy: Name, d: int): (s1: VoteState)
    requires proxy in s.voters
    ensures Edges(s1.voters) == Edges(s.voters) && s1.voters.Keys == s.voters.Keys
  {
    s.(voters := s.voters[proxy := s.voters[proxy].(proxied := s.voters[proxy].proxied + d)])
  }

  function SetWeight(s: VoteState, v: Name, weight: int): (s1: VoteState)
    requires v in s.voters
    ensures Edges(s1.voters) == Edges(s.voters) && s1.voters.Keys == s.voters.Keys
  {
    s.(voters := s.voters[v := s.voters[v].(lastWeight := weight)])
  }

  /** Adds `d` to each of the producers in turn. */
  function Spread(s: VoteState, names: seq<Name>, d: int, tab: Tab): (r: Result<(VoteState, Tab)>)
    ensures r.Ok? ==> r.value.0 == s.(producers := r.value.0.producers, totalWeight := r.value.0.totalWeight)
  {
    if names == [] then Ok((s, tab))
    else
      var (s1, tab1) :- Spread(s, names[..|names| - 1], d, tab);
      var name := names[|names| - 1];
      :- Check(name in s1.producers);
      Ok(ChangeVotes(s1, name, s1.producers[name].votes + d, d, tab1))
  }

  predicate Noticeable(d: int) {
    Abs(d) > 1
  }

  /** A changed weight travels to the voter's proxy, and from there on, or to its producers. */
  function Propagate(s: VoteState, v: Name): (r: Result<VoteState>)
    requires Acyclic(Edges(s.voters)) && v in s.voters
    ensures r.Ok? ==> Edges(r.value.voters) == Edges(s.voters) && r.value.voters.Keys == s.voters.Keys
    decreases Height(Edges(s.voters), v)
  {
    var voter := s.voters[v];
    :- Check(voter.proxy == NO_NAME || !voter.isProxy);
    var weight := WeightOf(s, voter);
    var d := weight - voter.lastWeight;
    var s3 :- (if !Noticeable(d) then Ok(s)
               else if voter.proxy != NO_NAME then
                 :- Check(voter.proxy in s.voters);
                 HeightFalls(Edges(s.voters), v);
                 Propagate(AddProxied(s, voter.proxy, d), voter.proxy)
               else
                 var (s1, tab) :- Spread(s, voter.producers, d, Tab(0, 0));
                 Ok(UpdateTotalShare(s1, -tab.inactive, tab.rate)));
    Ok(SetWeight(s3, v, weight))
  }

  // ---------- voting ----------

  predicate Ascending(names: seq<Name>) {
    forall i | 1 <= i < |names| :: names[i - 1] < names[i]
  }

  function WithdrawWeight(s: VoteState, v: Name): (r: Result<VoteState>)
    requires Acyclic(Edges(s.voters)) && v in s.voters
    ensures r.Ok? ==> Edges(r.value.voters) == Edges(s.voters) && r.value.voters.Keys == s.voters.Keys
  {
    var voter := s.voters[v];
    if voter.lastWeight > 0 && voter.proxy != NO_NAME then
      :- Check(voter.proxy in s.voters);
      Propagate(AddProxied(s, voter.proxy, -voter.lastWeight), voter.proxy)
    else Ok(s)
  }

  function GrantWeight(s: VoteState, proxy: Name, weight: int, voting: bool): (r: Result<VoteState>)
    requires Acyclic(Edges(s.voters))
    ensures r.Ok? ==> Edges(r.value.voters) == Edges(s.voters) && r.value.voters.Keys == s.voters.Keys
  {
    if proxy != NO_NAME then
      :- Check(proxy in s.voters);
      :- Check(!voting || s.voters[proxy].isProxy);
      if weight >= 0 then Propagate(AddProxied(s, proxy, weight), proxy) else Ok(s)
    else Ok(s)
  }

  /** The change in one producer's votes, and whether the voter newly lists it. */
  datatype Delta = Delta(amount: int, isNew: bool)

  function AddDeltas(deltas: map<Name, Delta>, names: seq<Name>, amount: int, isNew: bool): map<Name, Delta> {
    if names == [] then deltas
    else
      var rest := AddDeltas(deltas, names[..|names| - 1], amount, isNew);
      var name := names[|names| - 1];
      rest[name := Delta((if name in rest then rest[name].amount else 0) + amount, isNew)]
  }

  /** What the voter's old and new lists come to. */
  function Deltas(voter: Voter, proxy: Name, producers: seq<Name>, weight: int): map<Name, Delta> {
    var taken := if voter.lastWeight > 0 && voter.proxy == NO_NAME then
      AddDeltas(map[], voter.producers, -voter.lastWeight, false)
                 else map[];
    if proxy == NO_NAME && weight >= 0 then AddDeltas(taken, producers, weight, true) else taken
  }

  /** Applies the changes in ascending order of producer names. */
  function ApplyDeltas(s: VoteState, deltas: map<Name, Delta>, voting: bool, tab: Tab): (r: Result<(VoteState, Tab)>)
    ensures r.Ok? ==> r.value.0 == s.(producers := r.value.0.producers, totalWeight := r.value.0.totalWeight)
    decreases |deltas.Keys|
  {
    if deltas.Keys == {} then Ok((s, tab))
    else
      var name := Least(deltas.Keys, n => 0);
      var delta := deltas[name];
      assert (deltas - {name}).Keys == deltas.Keys - {name};
      if name in s.producers then
        :- Check(!voting || s.producers[name].isActive || !delta.isNew);
        var (s1, tab1) := ChangeVotes(s, name, Max(0, s.producers[name].votes + delta.amount), delta.amount, tab);
        ApplyDeltas(s1, deltas - {name}, voting, tab1)
      else
        :- Check(!delta.isNew);
        ApplyDeltas(s, deltas - {name}, voting, tab)
  }

  /** A first vote activates the voter's stake. */
  function Activated(s: VoteState, v: Name): VoteState
    requires v in s.voters
  {
    if s.voters[v].lastWeight <= 0 then s.(totalActivated := s.totalActivated + s.voters[v].staked) else s
  }

  /** The checks on a vote itself. */
  predicate VoteAllowed(s: VoteState, v: Name, proxy: Name, producers: seq<Name>) {
    && (if proxy != NO_NAME then |producers| == 0 && v != proxy
        else |producers| <= MAX_PRODUCERS && Ascending(producers))
    && v in s.voters
    && (proxy == NO_NAME || !s.voters[v].isProxy)
  }

  function UpdateVotes(s: VoteState, v: Name, proxy: Name, producers: seq<Name>, voting: bool): Result<VoteState>
    requires Acyclic(Edges(s.voters))
  {
    if VoteAllowed(s, v, proxy, producers) then Recast(s, v, proxy, producers, voting) else Abort
  }

  function Recast(s: VoteState, v: Name, proxy: Name, producers: seq<Name>, voting: bool): Result<VoteState>
    requires Acyclic(Edges(s.voters)) && v in s.voters
  {
    var voter := s.voters[v];
    var weight := WeightOf(s, voter);
    var s1 :- WithdrawWeight(Activated(s, v), v);
    var s2 :- GrantWeight(s1, proxy, weight, voting);
    var (s3, tab) :- ApplyDeltas(s2, Deltas(voter, proxy, producers, weight), voting, Tab(0, 0));
    var s4 := UpdateTotalShare(s3, -tab.inactive, tab.rate);
    Ok(s4.(voters := s4.voters[v := s4.voters[v].(lastWeight := weight, producers := producers, proxy := proxy)]))
  }

  // ---------- actions ----------

  function RegisterProxy(s: VoteState, v: Name, isProxy: bool): Result<VoteState>
    requires Acyclic(Edges(s.voters))
  {
    if v in s.voters then
      var voter := s.voters[v];
      :- Check(isProxy != voter.isProxy);
      :- Check(!isProxy || voter.proxy == NO_NAME);
      var s1 := s.(voters := s.voters[v := voter.(isProxy := isProxy)]);
      assert Edges(s1.voters) == Edges(s.voters);
      Propagate(s1, v)
    else Ok(s.(voters := s.voters[v := Voter(v, NO_NAME, [], 0, 0, 0, isProxy)]))
  }

  /** `update_voting_power`: the stake behind a vote changes. */
  function ChangeStake(s: VoteState, v: Name, delta: int): Result<VoteState>
    requires Acyclic(Edges(s.voters))
  {
    var voter := if v in s.voters then s.voters[v].(staked := s.voters[v].staked + delta)
                 else Voter(v, NO_NAME, [], delta, 0, 0, false);
    :- Check(0 <= voter.staked);
    var s1 := s.(voters := s.voters[v := voter]);
    assert Edges(s1.voters) == Edges(s.voters);
    if |voter.producers| > 0 || voter.proxy != NO_NAME then UpdateVotes(s1, v, voter.proxy, voter.producers, false)
    else Ok(s1)
  }

  /** `update_rex_stake`: the stake changes, the vote follows later. */
  function SyncStake(s: VoteState, v: Name, delta: int): VoteState {
    if v in s.voters then s.(voters := s.voters[v := s.voters[v].(staked := s.voters[v].staked + delta)]) else s
  }

  function RegisterProducer(s: VoteState, name: Name): VoteState {
    if name in s.producers then
      var p := s.producers[name];
      s.(producers := s.producers[name :=
        p.(isActive := true, lastClaim := if p.lastClaim == 0 then s.now else p.lastClaim)])
    else s.(producers := s.producers[name := Producer(0, true, 0, s.now, 0, s.now)])
  }

  function UnregisterProducer(s: VoteState, name: Name): Result<VoteState> {
    if name !in s.producers then Abort else
    Ok(s.(producers := s.producers[name := s.producers[name].(isActive := false)]))
  }
}
