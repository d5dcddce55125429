/** What the threshold of propagation costs: a run in which changes of one unit are not passed on,
    and what becomes of tallies, vote pay and the election in it. */
module DroppedChanges {
  import opened Basics
  import opened Tables
  import opened Voting
  import opened VotingInvariant
  import opened VoteCast
  import opened ProducerPay
  import opened ProxyGraph
  import opened Aggregate
  import opened PayRuns
  import opened Election

  // ---------- weights ----------

  /** The start of the year 2000, in seconds, from which weights are counted. */
  const EPOCH: nat := 946_684_800
  const YEAR_SECONDS: nat := 31_449_600
  /** The same moment, in microseconds: every action of the run happens in that first year. */
  const FIRST: nat := 946_684_800_000_000

  function Pow2(n: nat): nat {
    if n == 0 then 1 else 2 * Pow2(n - 1)
  }

  /** The weight of a stake after a whole number of years of 52 weeks: it doubles every year. */
  function YearlyWeight(stake: int, micros: nat): nat {
    var years := if Seconds(micros) < EPOCH then 0 else (Seconds(micros) - EPOCH) / YEAR_SECONDS;
    if stake <= 0 then 0 else stake * Pow2(years)
  }

  lemma FirstWeight(stake: int)
    ensures YearlyWeight(stake, FIRST) == Max(0, stake)
  {
    assert (Seconds(FIRST) - EPOCH) / YEAR_SECONDS == 0;
  }

  // ---------- runs from an empty chain ----------

  /** A chain on which nothing has happened. */
  function Genesis(): PayState {
    PayState(At(map[], map[], 0, 0, 0), map[], 0, 0, 0, 0, 0, 0, 0)
  }

  function At(
    voters: map<Name, Voter>, producers: map<Name, Producer>, activated: int, weight: int, rate: int): VoteState
  {
    VoteState(FIRST, YearlyWeight, voters, producers, activated, weight, 0, rate, FIRST)
  }

  lemma GenesisInitial()
    ensures Initial(Genesis()) && Proxies(Genesis().votes.voters)
  {
    InitialProxies(Genesis());
  }

  /** The actions lead from the empty chain to the tables `v`. */
  ghost predicate Leads(actions: seq<Action>, v: VoteState) {
    && Proxies(Genesis().votes.voters) && Run(Genesis(), actions).votes == v
    && Acyclic(Edges(v.voters))
  }

  lemma Starts()
    ensures Leads([], Genesis().votes)
  {
    hide Acyclic, Genesis, Proxies, Edges, Initial, Step;
    GenesisInitial();
    ProxiesAcyclic(Genesis().votes.voters);
  }

  /** One more action, performed. */
  lemma Extends(actions: seq<Action>, a: Action, v: VoteState, v1: VoteState)
    requires Leads(actions, v)
    requires forall s: PayState | s.votes == v :: Exec(s, a) == Ok(s.(votes := v1))
    ensures Leads(actions + [a], v1)
  {
    hide Exec, Acyclic, Edges, Proxies, Genesis;
    assert (actions + [a])[..|actions|] == actions;
    var s := Run(Genesis(), actions);
    assert Exec(s, a) == Ok(s.(votes := v1));
    assert Run(Genesis(), actions + [a]).votes == v1;
    ProxiesAcyclic(v1.voters);
  }

  lemma VoteLeads(actions: seq<Action>, v: VoteState, voter: Name, proxy: Name, names: seq<Name>, v1: VoteState)
    requires Leads(actions, v) && UpdateVotes(v, voter, proxy, names, true) == Ok(v1)
    ensures Leads(actions + [Vote(voter, proxy, names)], v1)
  {
    hide Leads, UpdateVotes, Acyclic, Edges;
    Extends(actions, Vote(voter, proxy, names), v, v1);
  }

  lemma ProxyLeads(actions: seq<Action>, v: VoteState, voter: Name, isProxy: bool, v1: VoteState)
    requires Leads(actions, v) && RegisterProxy(v, voter, isProxy) == Ok(v1)
    ensures Leads(actions + [RegProxy(voter, isProxy)], v1)
  {
    hide Leads, RegisterProxy, Acyclic, Edges;
    Extends(actions, RegProxy(voter, isProxy), v, v1);
  }

  lemma StakeLeads(actions: seq<Action>, v: VoteState, voter: Name, delta: int, v1: VoteState)
    requires Leads(actions, v) && ChangeStake(v, voter, delta) == Ok(v1)
    ensures Leads(actions + [Stake(voter, delta)], v1)
  {
    hide Leads, ChangeStake, Acyclic, Edges;
    Extends(actions, Stake(voter, delta), v, v1);
  }

  lemma RegistrationLeads(actions: seq<Action>, v: VoteState, producer: Name)
    requires Leads(actions, v)
    ensures Leads(actions + [RegProducer(producer)], RegisterProducer(v, producer))
  {
    hide Leads, RegisterProducer, Acyclic, Edges;
    Extends(actions, RegProducer(producer), v, RegisterProducer(v, producer));
  }

  lemma DeactivationLeads(actions: seq<Action>, v: VoteState, producer: Name)
    requires Leads(actions, v) && producer in v.producers
    ensures Leads(actions + [UnregProducer(producer)], UnregisterProducer(v, producer).value)
  {
    hide Leads, Acyclic, Edges;
    Extends(actions, UnregProducer(producer), v, UnregisterProducer(v, producer).value);
  }

  // ---------- single steps ----------

  /** A row that was brought up to date and claimed at the only moment of the run. */
  function Fresh(votes: int, isActive: bool): Producer {
    Producer(votes, isActive, 0, FIRST, 0, FIRST)
  }

  lemma NothingToSettle(s: VoteState, rate: int)
    requires s.lastVpay == s.now && s.totalShare == 0
    ensures UpdateTotalShare(s, 0, rate)
      == s.(shareRate := if rate < 0 && s.shareRate < -rate then 0 else s.shareRate + rate)
  {
  }

  /** A first vote for a registered proxy whose change of weight is too small to be passed on. */
  lemma UnnoticedVote(s: VoteState, u: Name, p: Name)
    requires Acyclic(Edges(s.voters)) && u in s.voters && p in s.voters && u != p && p != NO_NAME
    requires s.lastVpay == s.now && s.totalShare == 0
    requires var row := s.voters[u]; row == Voter(u, NO_NAME, [], row.staked, 0, 0, false)
    requires var row := s.voters[p];
      row.isProxy && row.proxy == NO_NAME && row.lastWeight == s.weigh(row.staked, s.now) + row.proxied
    requires s.weigh(s.voters[u].staked, s.now) == 1
    ensures UpdateVotes(s, u, p, [], true) == Ok(s.(
      totalActivated := s.totalActivated + s.voters[u].staked,
      voters := s.voters[p := s.voters[p].(proxied := s.voters[p].proxied + 1,
        lastWeight := s.voters[p].lastWeight + 1)]
                        [u := s.voters[u].(lastWeight := 1, proxy := p)]))
  {
    hide Acyclic, Edges, UpdateTotalShare, Spread;
    var s0 := Activated(s, u);
    assert WithdrawWeight(s0, u) == Ok(s0);
    UnnoticedGrant(s0, p);
    var s2 := GrantWeight(s0, p, 1, true).value;
    NoDeltas(s2, Tab(0, 0));
    NothingToSettle(s2, 0);
    assert s2.voters[u] == s.voters[u];
  }

  lemma UnnoticedGrant(s: VoteState, p: Name)
    requires Acyclic(Edges(s.voters)) && p in s.voters && p != NO_NAME
    requires var row := s.voters[p];
      row.isProxy && row.proxy == NO_NAME && row.lastWeight == s.weigh(row.staked, s.now) + row.proxied
    ensures GrantWeight(s, p, 1, true) == Ok(s.(
      voters := s.voters[p := s.voters[p].(proxied := s.voters[p].proxied + 1,
        lastWeight := s.voters[p].lastWeight + 1)]))
  {
    hide Acyclic, Edges, Spread, UpdateTotalShare;
    var s1 := AddProxied(s, p, 1);
    var w := s.voters[p].lastWeight + 1;
    assert WeightOf(s1, s1.voters[p]) == w;
    assert Propagate(s1, p) == Ok(SetWeight(s1, p, w));
    assert SetWeight(s1, p, w).voters
        == s.voters[p := s.voters[p].(proxied := s.voters[p].proxied + 1, lastWeight := w)];
  }

  lemma NoDeltas(s: VoteState, tab: Tab)
    ensures ApplyDeltas(s, map[], true, tab) == Ok((s, tab))
  {
  }

  /** A vote for one producer whose row is fresh, by a voter that lists nobody yet. */
  lemma DirectVote(s: VoteState, v: Name, q: Name)
    requires Acyclic(Edges(s.voters)) && v in s.voters && q in s.producers
    requires s.now == s.lastVpay == FIRST && s.totalShare == 0 && s.shareRate >= 0
    requires s.voters[v].proxy == NO_NAME && s.voters[v].producers == []
    requires s.producers[q] == Fresh(s.producers[q].votes, true) && s.producers[q].votes >= 0
    requires WeightOf(s, s.voters[v]) >= 0
    ensures var w := WeightOf(s, s.voters[v]); var p := s.producers[q];
      UpdateVotes(s, v, NO_NAME, [q], true) == Ok(s.(
        totalActivated := s.totalActivated + (if s.voters[v].lastWeight > 0 then 0 else s.voters[v].staked),
        totalWeight := s.totalWeight + w, shareRate := s.shareRate + w,
        producers := s.producers[q := Fresh(p.votes + w, true)],
        voters := s.voters[v := s.voters[v].(lastWeight := w, producers := [q])]))
  {
    hide Acyclic, Edges, UpdateTotalShare, ApplyDeltas;
    var w := WeightOf(s, s.voters[v]);
    var s0 := Activated(s, v);
    assert WithdrawWeight(s0, v) == Ok(s0) && GrantWeight(s0, NO_NAME, w, true) == Ok(s0);
    var deltas := Deltas(s.voters[v], NO_NAME, [q], w);
    assert [q][..0] == [];
    assert AddDeltas(map[], [q][..0], w, true) == map[];
    assert deltas == map[q := Delta(w, true)];
    OneDelta(s0, q, w);
    var (s3, tab) := ApplyDeltas(s0, deltas, true, Tab(0, 0)).value;
    NothingToSettle(s3, w);
  }

  lemma OneDelta(s: VoteState, q: Name, w: int)
    requires q in s.producers && s.now == FIRST && w >= 0
    requires s.producers[q] == Fresh(s.producers[q].votes, true) && s.producers[q].votes >= 0
    ensures ApplyDeltas(s, map[q := Delta(w, true)], true, Tab(0, 0)) == Ok((
      s.(producers := s.producers[q := Fresh(s.producers[q].votes + w, true)], totalWeight := s.totalWeight + w),
        Tab(w, 0)))
  {
    hide ChangeVotes, ApplyDeltas;
    var deltas := map[q := Delta(w, true)];
    assert deltas.Keys == {q};
    LastDelta(s, deltas, q);
    FreshChange(s, q, s.producers[q].votes + w, w);
  }

  lemma LastDelta(s: VoteState, deltas: map<Name, Delta>, q: Name)
    requires deltas.Keys == {q} && q in s.producers && s.producers[q].isActive
    ensures ApplyDeltas(s, deltas, true, Tab(0, 0))
         == Ok(ChangeVotes(s, q, Max(0, s.producers[q].votes + deltas[q].amount), deltas[q].amount, Tab(0, 0)))
  {
    hide ChangeVotes;
    var d := deltas[q].amount;
    var (s1, tab1) := ChangeVotes(s, q, Max(0, s.producers[q].votes + d), d, Tab(0, 0));
    assert Least(deltas.Keys, n => 0) == q;
    assert deltas - {q} == map[];
    NoDeltas(s1, tab1);
  }

  lemma FreshChange(s: VoteState, q: Name, votes: int, d: int)
    requires q in s.producers && s.now == FIRST
    requires s.producers[q] == Fresh(s.producers[q].votes, s.producers[q].isActive)
    ensures ChangeVotes(s, q, votes, d, Tab(0, 0)) == (
      s.(producers := s.producers[q := s.producers[q].(votes := votes)], totalWeight := s.totalWeight + d), Tab(d, 0))
  {
  }

  /** A proxy that retires takes from its one producer all it ever received. */
  lemma Retires(s: VoteState, p: Name, q: Name)
    requires Acyclic(Edges(s.voters)) && p in s.voters && q in s.producers
    requires s.now == s.lastVpay == FIRST && s.totalShare == 0
    requires var row := s.voters[p];
      row.isProxy && row.proxy == NO_NAME && row.producers == [q] && s.weigh(row.staked, s.now) == 0
        && row.lastWeight > 1
    requires s.producers[q] == Fresh(s.producers[q].votes, s.producers[q].isActive)
    ensures var row := s.voters[p]; var p1 := s.producers[q];
      RegisterProxy(s, p, false) == Ok(s.(
        producers := s.producers[q := p1.(votes := p1.votes - row.lastWeight)],
        totalWeight := s.totalWeight - row.lastWeight,
        shareRate := if s.shareRate < row.lastWeight then 0 else s.shareRate - row.lastWeight,
        voters := s.voters[p := row.(isProxy := false, lastWeight := 0)]))
  {
    hide Acyclic, Edges, UpdateTotalShare, Spread;
    var s1 := Registered(s, p, false);
    var d := -s.voters[p].lastWeight;
    assert WeightOf(s1, s1.voters[p]) == 0;
    OneSpread(s1, q, d);
    var (s2, tab) := Spread(s1, [q], d, Tab(0, 0)).value;
    NothingToSettle(s2, d);
    assert s1.voters[p := s1.voters[p].(lastWeight := 0)]
      == s.voters[p := s.voters[p].(isProxy := false, lastWeight := 0)];
  }

  lemma OneSpread(s: VoteState, q: Name, d: int)
    requires q in s.producers && s.now == FIRST
    requires s.producers[q] == Fresh(s.producers[q].votes, s.producers[q].isActive)
    ensures var p := s.producers[q];
      Spread(s, [q], d, Tab(0, 0)) == Ok((
        s.(producers := s.producers[q := p.(votes := p.votes + d)], totalWeight := s.totalWeight + d), Tab(d, 0)))
  {
    hide ChangeVotes;
    assert Spread(s, [q][..0], d, Tab(0, 0)) == Ok((s, Tab(0, 0)));
    FreshChange(s, q, s.producers[q].votes + d, d);
  }

  // ---------- the run ----------

  const PRODUCER: Name := 1
  const LEADER: Name := 2
  const PROXY: Name := 3
  const USER: Name := 4
  const OTHER: Name := 5
  const FOLLOWER: Name := 6

  /** A proxy without stake votes for a producer. */
  const OPENING: seq<Action> := [RegProducer(PRODUCER), RegProxy(PROXY, true), Vote(PROXY, NO_NAME, [PRODUCER])]

  /** An account with one unit of stake chooses the proxy. */
  function Joining(user: Name): seq<Action> {
    [Stake(user, 1), Vote(user, PROXY, [])]
  }

  /** An account with `stake` units votes for another producer. */
  function Following(stake: nat): seq<Action> {
    [RegProducer(LEADER), Stake(FOLLOWER, stake), Vote(FOLLOWER, NO_NAME, [LEADER])]
  }

  /** The proxy gives up, after two accounts have chosen it. */
  function Retirement(stake: nat): seq<Action> {
    OPENING + Joining(USER) + Joining(OTHER) + Following(stake) + [RegProxy(PROXY, false)]
  }

  function ProxyRow(weight: int, received: int, isProxy: bool): Voter {
    Voter(PROXY, NO_NAME, [PRODUCER], 0, weight, received, isProxy)
  }

  function UserRow(user: Name): Voter {
    Voter(user, PROXY, [], 1, 1, 0, false)
  }

  function FollowerRow(stake: nat): Voter {
    Voter(FOLLOWER, NO_NAME, [LEADER], stake, stake, 0, false)
  }

  lemma Opens()
    ensures Leads(OPENING, At(map[PROXY := ProxyRow(0, 0, true)], map[PRODUCER := Fresh(0, true)], 0, 0, 0))
  {
    hide Leads, UpdateVotes, Acyclic, Edges, YearlyWeight;
    Starts();
    var v0 := At(map[], map[], 0, 0, 0);
    RegistrationLeads([], v0, PRODUCER);
    var v1 := RegisterProducer(v0, PRODUCER);
    var a1 := [RegProducer(PRODUCER)];
    assert [] + a1 == a1;
    LeadsAcyclic(a1, v1);
    var v2 := v1.(voters := map[PROXY := Voter(PROXY, NO_NAME, [], 0, 0, 0, true)]);
    assert RegisterProxy(v1, PROXY, true) == Ok(v2);
    ProxyLeads(a1, v1, PROXY, true, v2);
    var a2 := a1 + [RegProxy(PROXY, true)];
    LeadsAcyclic(a2, v2);
    FirstWeight(0);
    DirectVote(v2, PROXY, PRODUCER);
    var v3 := UpdateVotes(v2, PROXY, NO_NAME, [PRODUCER], true).value;
    VoteLeads(a2, v2, PROXY, NO_NAME, [PRODUCER], v3);
    assert v3 == At(map[PROXY := ProxyRow(0, 0, true)], map[PRODUCER := Fresh(0, true)], 0, 0, 0);
    assert a2 + [Vote(PROXY, NO_NAME, [PRODUCER])] == OPENING;
  }

  lemma LeadsAcyclic(actions: seq<Action>, v: VoteState)
    requires Leads(actions, v)
    ensures Acyclic(Edges(v.voters))
  {
    hide Acyclic;
  }

  function Joined(v: VoteState, user: Name, held: nat): VoteState {
    v.(totalActivated := v.totalActivated + 1,
       voters := v.voters[PROXY := ProxyRow(held + 1, held + 1, true)][user := UserRow(user)])
  }

  /** The unit of weight that a new user brings reaches the proxy's row, but no producer. */
  lemma Joins(actions: seq<Action>, v: VoteState, user: Name, held: nat)
    requires v == At(v.voters, v.producers, v.totalActivated, v.totalWeight, v.shareRate)
    requires PROXY in v.voters && v.voters[PROXY] == ProxyRow(held, held, true)
    requires user !in v.voters && user != NO_NAME && Leads(actions, v)
    ensures Leads(actions + Joining(user), Joined(v, user, held))
  {
    hide Leads, UpdateVotes, Acyclic, Edges, YearlyWeight;
    var row := Voter(user, NO_NAME, [], 1, 0, 0, false);
    var v1 := v.(voters := v.voters[user := row]);
    LeadsAcyclic(actions, v);
    assert ChangeStake(v, user, 1) == Ok(v1);
    StakeLeads(actions, v, user, 1, v1);
    LeadsAcyclic(actions + [Stake(user, 1)], v1);
    FirstWeight(0);
    FirstWeight(1);
    UnnoticedVote(v1, user, PROXY);
    var v2 := UpdateVotes(v1, user, PROXY, [], true).value;
    VoteLeads(actions + [Stake(user, 1)], v1, user, PROXY, [], v2);
    assert actions + [Stake(user, 1)] + [Vote(user, PROXY, [])] == actions + Joining(user);
    assert v2.voters == v.voters[PROXY := ProxyRow(held + 1, held + 1, true)][user := UserRow(user)];
  }

  lemma Follows(actions: seq<Action>, v: VoteState, stake: nat)
    requires Leads(actions, v) && v == At(v.voters, v.producers, v.totalActivated, v.totalWeight, v.shareRate)
    requires LEADER !in v.producers && FOLLOWER !in v.voters && v.shareRate >= 0
    ensures Leads(actions + Following(stake), v.(
      totalActivated := v.totalActivated + stake, totalWeight := v.totalWeight + stake,
      shareRate := v.shareRate + stake,
      producers := v.producers[LEADER := Fresh(stake, true)], voters := v.voters[FOLLOWER := FollowerRow(stake)]))
  {
    hide Leads, UpdateVotes, Acyclic, Edges, YearlyWeight;
    RegistrationLeads(actions, v, LEADER);
    var v1 := RegisterProducer(v, LEADER);
    LeadsAcyclic(actions + [RegProducer(LEADER)], v1);
    var v2 := v1.(voters := v1.voters[FOLLOWER := Voter(FOLLOWER, NO_NAME, [], stake, 0, 0, false)]);
    assert ChangeStake(v1, FOLLOWER, stake) == Ok(v2);
    StakeLeads(actions + [RegProducer(LEADER)], v1, FOLLOWER, stake, v2);
    LeadsAcyclic(actions + [RegProducer(LEADER)] + [Stake(FOLLOWER, stake)], v2);
    FirstWeight(stake);
    DirectVote(v2, FOLLOWER, LEADER);
    var v3 := UpdateVotes(v2, FOLLOWER, NO_NAME, [LEADER], true).value;
    VoteLeads(actions + [RegProducer(LEADER)] + [Stake(FOLLOWER, stake)], v2, FOLLOWER, NO_NAME, [LEADER], v3);
    assert actions + [RegProducer(LEADER)] + [Stake(FOLLOWER, stake)] + [Vote(FOLLOWER, NO_NAME, [LEADER])]
        == actions + Following(stake);
    assert v3.voters == v.voters[FOLLOWER := FollowerRow(stake)];
    assert v3.producers == v.producers[LEADER := Fresh(stake, true)];
  }

  /** The tables after the run: the proxy took two units from a producer that never received them. */
  function RetiredTables(stake: nat): VoteState {
    At(map[PROXY := ProxyRow(0, 2, false)][USER := UserRow(USER)][OTHER := UserRow(OTHER)]
         [FOLLOWER := FollowerRow(stake)],
       map[PRODUCER := Fresh(-2, true)][LEADER := Fresh(stake, true)], 2 + stake, stake - 2, Max(0, stake - 2))
  }

  lemma FirstUser()
    ensures Leads(OPENING + Joining(USER),
      At(map[PROXY := ProxyRow(1, 1, true)][USER := UserRow(USER)], map[PRODUCER := Fresh(0, true)], 1, 0, 0))
  {
    hide Leads;
    Opens();
    var v := At(map[PROXY := ProxyRow(0, 0, true)], map[PRODUCER := Fresh(0, true)], 0, 0, 0);
    Joins(OPENING, v, USER, 0);
    assert v.voters[PROXY := ProxyRow(1, 1, true)][USER := UserRow(USER)]
        == map[PROXY := ProxyRow(1, 1, true)][USER := UserRow(USER)];
  }

  lemma RetirementLeads(stake: nat)
    ensures Leads(Retirement(stake), RetiredTables(stake))
  {
    hide Leads, YearlyWeight, Acyclic, Edges, RegisterProxy;
    FirstUser();
    var v1 := At(map[PROXY := ProxyRow(1, 1, true)][USER := UserRow(USER)], map[PRODUCER := Fresh(0, true)], 1, 0, 0);
    Joins(OPENING + Joining(USER), v1, OTHER, 1);
    var v2 := v1.(totalActivated := 2, voters := v1.voters[PROXY := ProxyRow(2, 2, true)][OTHER := UserRow(OTHER)]);
    Follows(OPENING + Joining(USER) + Joining(OTHER), v2, stake);
    var v3 := v2.(
      totalActivated := 2 + stake, totalWeight := stake, shareRate := stake,
      producers := v2.producers[LEADER := Fresh(stake, true)], voters := v2.voters[FOLLOWER := FollowerRow(stake)]);
    var actions := OPENING + Joining(USER) + Joining(OTHER) + Following(stake);
    LeadsAcyclic(actions, v3);
    FirstWeight(0);
    Retires(v3, PROXY, PRODUCER);
    var v4 := RegisterProxy(v3, PROXY, false).value;
    ProxyLeads(actions, v3, PROXY, false, v4);
    assert v4.voters == RetiredTables(stake).voters;
    assert v4.producers == RetiredTables(stake).producers;
  }

  // ---------- what the run breaks ----------

  lemma TwoRows<V>(rows: map<Name, V>, a: Name, b: Name, f: V -> int)
    requires rows.Keys == {a, b} && a != b
    ensures SumOf(rows, f) == f(rows[a]) + f(rows[b])
  {
    SumSplit(rows, f, a);
    var rest := rows - {a};
    assert rest.Keys == {b};
    SumSplit(rest, f, b);
    assert rest - {b} == map[];
  }

  /** Tallies: after five actions the producer lacks the unit of weight that its one voter has. */
  lemma TallyFails()
    ensures Initial(Genesis()) && AllAdmissible(OPENING + Joining(USER)) && Proxies(Genesis().votes.voters)
    ensures var v := Run(Genesis(), OPENING + Joining(USER)).votes;
      PRODUCER in v.producers && v.producers[PRODUCER].votes == 0 && SumOf(v.voters, DirectTo(PRODUCER)) == 1
      && !Tally(v, map[])
  {
    hide SumOf, Acyclic, Edges, Proxies, Run, Genesis, Initial;
    GenesisInitial();
    FirstUser();
    var v := Run(Genesis(), OPENING + Joining(USER)).votes;
    TwoRows(v.voters, PROXY, USER, DirectTo(PRODUCER));
  }

  /** Vote pay: two more users and a retirement later the producer's votes are negative, and the global
      rate no longer is the sum of the counted votes unless others make up for them. */
  lemma PayFails(stake: nat)
    ensures Initial(Genesis()) && AllAdmissible(Retirement(stake)) && Proxies(Genesis().votes.voters)
    ensures var v := Run(Genesis(), Retirement(stake)).votes;
      && PRODUCER in v.producers && v.producers[PRODUCER].votes == -2 && !VotePay(v, Tab(0, 0))
      && SumOf(v.producers, CountedVotes) == stake - 2 && v.shareRate == Max(0, stake - 2)
      && (Equations(v, Tab(0, 0)) <==> stake >= 2)
  {
    hide SumOf, Acyclic, Edges, Proxies, Run, Genesis, Initial, YearlyWeight;
    GenesisInitial();
    RetirementLeads(stake);
    var v := Run(Genesis(), Retirement(stake)).votes;
    TwoRows(v.producers, PRODUCER, LEADER, CountedVotes);
    TwoRows(v.producers, PRODUCER, LEADER, SharesAt(FIRST));
  }

  /** The election: once the producer is deactivated, it hides everyone with no more votes than it
      lacks, although there are seats. */
  lemma ElectionFails(stake: nat)
    requires stake >= 1
    ensures Initial(Genesis()) && AllAdmissible(Retirement(stake) + [UnregProducer(PRODUCER)])
    ensures Proxies(Genesis().votes.voters)
    ensures var producers := Run(Genesis(), Retirement(stake) + [UnregProducer(PRODUCER)]).votes.producers;
      && Eligibles(producers) == {LEADER} && Elected(producers) == (if stake > 2 then [LEADER] else [])
      && (Best(producers, Elected(producers), Seats(producers)) <==> stake > 2)
  {
    hide Proxies, Run, Genesis, Initial, Elected, Eligibles, Best, Seats;
    GenesisInitial();
    DeactivatedRows(stake);
    ElectedOfTwo(Run(Genesis(), Retirement(stake) + [UnregProducer(PRODUCER)]).votes.producers, stake);
  }

  lemma DeactivatedRows(stake: nat)
    ensures Proxies(Genesis().votes.voters)
    ensures Run(Genesis(), Retirement(stake) + [UnregProducer(PRODUCER)]).votes.producers
         == map[PRODUCER := Fresh(-2, false)][LEADER := Fresh(stake, true)]
  {
    hide Acyclic, Edges, Proxies, Run, Genesis, YearlyWeight, Retirement;
    RetirementLeads(stake);
    DeactivationLeads(Retirement(stake), RetiredTables(stake), PRODUCER);
  }

  lemma ElectedOfTwo(producers: map<Name, Producer>, stake: nat)
    requires producers == map[PRODUCER := Fresh(-2, false)][LEADER := Fresh(stake, true)] && stake >= 1
    ensures Eligibles(producers) == {LEADER} && Elected(producers) == (if stake > 2 then [LEADER] else [])
    ensures Best(producers, Elected(producers), Seats(producers)) <==> stake > 2
  {
    assert producers.Keys == {PRODUCER, LEADER};
    var first := if stake > 2 then LEADER else PRODUCER;
    assert Least(producers.Keys, ByVotes(producers)) == first;
    if stake > 2 {
      assert producers.Keys - {LEADER} == {PRODUCER};
      assert Least({PRODUCER}, ByVotes(producers)) == PRODUCER;
      assert !Eligible(producers, PRODUCER);
      assert Scan(producers, [LEADER], {PRODUCER}) == [LEADER];
      assert [] + [LEADER] == [LEADER];
      assert Scan(producers, [], producers.Keys) == Scan(producers, [] + [LEADER], producers.Keys - {LEADER});
    }
  }
}
