/** What every reachable state of the voter and producer tables satisfies, and how changes of
    single rows move the sums it speaks of. */
module VotingInvariant {
  import opened Basics
  import opened Arithmetic
  import opened Tables
  import opened Voting

  // ---------- columns ----------

  function Votes(p: Producer): int { p.votes }
  function Unpaid(p: Producer): int { p.unpaidBlocks }

  /** Weight last cast through `proxy`. */
  function LastTo(proxy: Name): Voter -> int {
    (v: Voter) => if v.proxy == proxy && proxy != NO_NAME then v.lastWeight else 0
  }

  /** Weight last cast directly for `producer`. */
  function DirectTo(producer: Name): Voter -> int {
    (v: Voter) => if v.proxy == NO_NAME && producer in v.producers then v.lastWeight else 0
  }

  /** A producer's votes count towards the global rate until three days after its last claim,
      seen at its last update. */
  predicate Counted(p: Producer) {
    p.lastUpdate < p.lastClaim + THREE_DAYS
  }

  function CountedVotes(p: Producer): int {
    if Counted(p) then p.votes else 0
  }

  /** The producer's share if it were brought up to date at `now`. */
  function SharesAt(now: nat): Producer -> int {
    (p: Producer) => if Counted(p) then p.share + p.votes * (now - p.lastUpdate) else 0
  }

  // ---------- the invariant ----------

  /** Voter rows are well-formed, and a registered proxy uses no proxy. */
  ghost predicate VoterOk(row: Voter, v: Name, voters: map<Name, Voter>, producers: map<Name, Producer>) {
    && v != NO_NAME && row.lastWeight >= 0 && Ascending(row.producers)
    && (forall q | q in row.producers :: q in producers)
    && (row.proxy != NO_NAME ==> row.proxy in voters && row.proxy != v && row.producers == [] && !row.isProxy)
  }

  ghost predicate VotersOk(s: VoteState) {
    && Acyclic(Edges(s.voters))
    && (forall v | v in s.voters :: VoterOk(s.voters[v], v, s.voters, s.producers))
  }

  /** Adjustments to what a proxy's received weight should be, while a vote is under way. */
  function Ext(ext: map<Name, int>, p: Name): int {
    if p in ext then ext[p] else 0
  }

  /** Each proxy holds the weight of those that use it. */
  ghost predicate ProxyTally(voters: map<Name, Voter>, ext: map<Name, int>) {
    forall p | p in voters :: voters[p].proxied == SumOf(voters, LastTo(p)) + Ext(ext, p)
  }

  /** Each producer holds the weight of those that vote for it directly, and the total is theirs. */
  ghost predicate ProducerTally(s: VoteState) {
    && (forall q | q in s.producers :: s.producers[q].votes == SumOf(s.voters, DirectTo(q)))
    && s.totalWeight == SumOf(s.producers, Votes)
  }

  ghost predicate Tally(s: VoteState, ext: map<Name, int>) {
    ProxyTally(s.voters, ext) && ProducerTally(s)
  }

  /** A row's times and share, whatever its votes. */
  ghost predicate RowSound(p: Producer, now: nat) {
    && p.share >= 0 && p.lastUpdate <= now && 0 < p.lastClaim <= now
    && (!Counted(p) ==> p.share == 0)
  }

  ghost predicate ProducerOk(p: Producer, now: nat) {
    p.votes >= 0 && RowSound(p, now)
  }

  /** The two global counters stand exactly for the counted producers, once `tab` is settled. */
  ghost predicate VotePay(s: VoteState, tab: Tab) {
    && s.lastVpay <= s.now && s.totalShare >= 0
    && s.shareRate + tab.rate == SumOf(s.producers, CountedVotes)
    && s.totalShare + s.shareRate * (s.now - s.lastVpay) - tab.inactive == SumOf(s.producers, SharesAt(s.now))
    && (forall q | q in s.producers :: ProducerOk(s.producers[q], s.now))
  }

  ghost predicate VoteInv(s: VoteState) {
    VotersOk(s) && Tally(s, map[]) && VotePay(s, Tab(0, 0)) && s.now > 0
  }

  // ---------- sums ----------

  lemma AscendingDistinct(names: seq<Name>)
    requires Ascending(names) && names != []
    ensures names[|names| - 1] !in names[..|names| - 1]
    ensures Ascending(names[..|names| - 1])
  {
    forall i | 0 <= i < |names| - 1
      ensures names[i] < names[|names| - 1]
    {
      AscendingSteps(names, i, |names| - 1);
    }
  }

  lemma {:induction false} AscendingSteps(names: seq<Name>, i: nat, j: nat)
    requires Ascending(names) && i < j < |names|
    ensures names[i] < names[j]
  {
    if i + 1 < j {
      AscendingSteps(names, i, j - 1);
    }
  }

  lemma CountedBounds(s: VoteState, tab: Tab)
    requires VotePay(s, tab)
    ensures SumOf(s.producers, CountedVotes) >= 0 && SumOf(s.producers, SharesAt(s.now)) >= 0
  {
    hide SumOf;
    SumNonNegative(s.producers, CountedVotes);
    forall q | q in s.producers
      ensures SharesAt(s.now)(s.producers[q]) >= 0
    {
      ShareNonNegative(s.producers[q], s.now);
    }
    SumNonNegative(s.producers, SharesAt(s.now));
  }

  lemma ShareNonNegative(p: Producer, now: nat)
    requires ProducerOk(p, now)
    ensures SharesAt(now)(p) >= 0
  {
    MulMono(0, p.votes, now - p.lastUpdate);
  }

  /** Shares grow with the counted votes as time passes. */
  lemma {:induction false} SharesGrow(producers: map<Name, Producer>, now: nat, later: nat)
    ensures SumOf(producers, SharesAt(later))
      == SumOf(producers, SharesAt(now)) + SumOf(producers, CountedVotes) * (later - now)
    decreases |producers|
  {
    hide SharesAt, CountedVotes;
    if producers.Keys == {} {
      assert producers == map[];
    } else {
      var q :| q in producers.Keys;
      var rest := producers - {q};
      assert rest.Keys == producers.Keys - {q};
      SumSplit(producers, SharesAt(later), q);
      SumSplit(producers, SharesAt(now), q);
      SumSplit(producers, CountedVotes, q);
      SharesGrow(rest, now, later);
      OneShareGrows(producers[q], now, later);
      Distribute(CountedVotes(producers[q]), SumOf(rest, CountedVotes), later - now);
    }
  }

  lemma OneShareGrows(p: Producer, now: nat, later: nat)
    ensures SharesAt(later)(p) == SharesAt(now)(p) + CountedVotes(p) * (later - now)
  {
    assert p.votes * (later - p.lastUpdate) == p.votes * (now - p.lastUpdate) + p.votes * (later - now);
  }

  lemma Distribute(a: int, b: int, c: int)
    ensures (a + b) * c == a * c + b * c
  {
  }

  // ---------- one producer ----------

  /** One row brought up to date: what it adds to the sums, and what the tab records. */
  lemma RowAccrues(p: Producer, now: nat, votes: int, d: int)
    requires ProducerOk(p, now) && votes == p.votes + d && votes >= 0
    ensures var crossed := p.lastClaim + THREE_DAYS <= now;
      var updatedAfter := p.lastClaim + THREE_DAYS <= p.lastUpdate;
      var (p1, share) := UpdateShare(p.(votes := votes), now, if updatedAfter then 0 else p.votes,
        crossed && !updatedAfter);
      && ProducerOk(p1, now) && p1.votes == votes
      && CountedVotes(p1) - CountedVotes(p) == (if !crossed then d else if !updatedAfter then -p.votes else 0)
      && SharesAt(now)(p1) - SharesAt(now)(p) == (if crossed && !updatedAfter then -share else 0)
  {
    AccruedShare(p, now);
    assert votes * (now - now) == 0;
  }

  lemma AccruedShare(p: Producer, now: nat)
    requires ProducerOk(p, now)
    ensures p.votes * (now - p.lastUpdate) >= 0
    ensures (if p.votes > 0 && now > p.lastUpdate then p.votes * (now - p.lastUpdate) else 0)
      == p.votes * (now - p.lastUpdate)
  {
    MulMono(0, p.votes, now - p.lastUpdate);
  }

  /** The lazy accounting is exact: whatever happened since a producer's last update, changing its
      votes keeps the global counters equal to the sums they stand for. */
  lemma ChangeVotesKeeps(s: VoteState, name: Name, votes: int, d: int, tab: Tab)
    requires VotePay(s, tab) && name in s.producers && votes == s.producers[name].votes + d && votes >= 0
    ensures var (s1, tab1) := ChangeVotes(s, name, votes, d, tab);
      && VotePay(s1, tab1) && s1.totalWeight - SumOf(s1.producers, Votes) == s.totalWeight - SumOf(s.producers, Votes)
  {
    hide SumOf, ProducerOk, SharesAt, CountedVotes, UpdateShare;
    RowAccrues(s.producers[name], s.now, votes, d);
    var p1 := ChangeVotes(s, name, votes, d, tab).0.producers[name];
    SumStore(s.producers, CountedVotes, name, p1);
    SumStore(s.producers, SharesAt(s.now), name, p1);
    SumStore(s.producers, Votes, name, p1);
  }

  /** The clamp at zero in a vote, should it fire, breaks the accounting exactly for producers that
      are still counted: the global rate takes the whole change, the row only a part of it. */
  lemma ClampKeepsPay(s: VoteState, name: Name, d: int, tab: Tab)
    requires VotePay(s, tab) && name in s.producers && s.producers[name].votes + d < 0
    ensures var (s1, tab1) := ChangeVotes(s, name, 0, d, tab);
      VotePay(s1, tab1) <==> s.producers[name].lastClaim + THREE_DAYS <= s.now
  {
    hide SumOf, ProducerOk, SharesAt, CountedVotes, UpdateShare;
    var p := s.producers[name];
    var p1 := ChangeVotes(s, name, 0, d, tab).0.producers[name];
    ClampedRow(p, s.now);
    SumStore(s.producers, CountedVotes, name, p1);
    SumStore(s.producers, SharesAt(s.now), name, p1);
  }

  lemma ClampedRow(p: Producer, now: nat)
    requires ProducerOk(p, now)
    ensures var crossed := p.lastClaim + THREE_DAYS <= now;
      var updatedAfter := p.lastClaim + THREE_DAYS <= p.lastUpdate;
      var (p1, share) := UpdateShare(p.(votes := 0), now, if updatedAfter then 0 else p.votes,
        crossed && !updatedAfter);
      && ProducerOk(p1, now) && (updatedAfter ==> crossed)
      && CountedVotes(p1) - CountedVotes(p) == (if updatedAfter then 0 else -p.votes)
      && SharesAt(now)(p1) - SharesAt(now)(p) == (if crossed && !updatedAfter then -share else 0)
  {
    AccruedShare(p, now);
  }

  /** Settling a tab: neither clamp of the global counters fires. */
  lemma UpdateTotalShareKeeps(s: VoteState, tab: Tab)
    requires VotePay(s, tab)
    ensures var s1 := UpdateTotalShare(s, -tab.inactive, tab.rate);
      && VotePay(s1, Tab(0, 0)) && s1.totalShare >= 0 && s1.shareRate >= 0
      && s1.totalShare == SumOf(s.producers, SharesAt(s.now))
  {
    hide SumOf;
    CountedBounds(s, tab);
  }

  lemma TotalsOnly(s: VoteState, tab: Tab)
    ensures var s1 := UpdateTotalShare(s, -tab.inactive, tab.rate);
      s1 == s.(totalShare := s1.totalShare, shareRate := s1.shareRate, lastVpay := s1.lastVpay)
  {
  }

  /** Producer rows that changed at most in votes, share and update time. */
  ghost predicate SameProducers(s: VoteState, s1: VoteState) {
    && s1.producers.Keys == s.producers.Keys
    && (forall q | q in s.producers ::
          s1.producers[q].isActive == s.producers[q].isActive
            && s1.producers[q].unpaidBlocks == s.producers[q].unpaidBlocks
          && s1.producers[q].lastClaim == s.producers[q].lastClaim)
  }

  lemma ChangeVotesRow(s: VoteState, name: Name, votes: int, d: int, tab: Tab)
    requires name in s.producers
    ensures var s1 := ChangeVotes(s, name, votes, d, tab).0;
      && SameProducers(s, s1) && s1.producers[name].votes == votes
      && (forall q | q in s.producers && q != name :: s1.producers[q] == s.producers[q])
  {
  }

  lemma {:induction false} SpreadKeeps(s: VoteState, names: seq<Name>, d: int, tab: Tab)
    requires VotePay(s, tab) && Ascending(names)
    requires forall q | q in names :: q in s.producers && s.producers[q].votes + d >= 0
    ensures Spread(s, names, d, tab).Ok?
    ensures var (s1, tab1) := Spread(s, names, d, tab).value;
      && VotePay(s1, tab1) && SameProducers(s, s1)
      && (forall q | q in s.producers :: s1.producers[q].votes == s.producers[q].votes + (if q in names then d else 0))
      && s1.totalWeight - SumOf(s1.producers, Votes) == s.totalWeight - SumOf(s.producers, Votes)
  {
    hide SumOf, VotePay, ChangeVotes;
    if names != [] {
      var rest, name := names[..|names| - 1], names[|names| - 1];
      assert names == rest + [name];
      AscendingDistinct(names);
      SpreadKeeps(s, rest, d, tab);
      var (s1, tab1) := Spread(s, rest, d, tab).value;
      ChangeVotesKeeps(s1, name, s1.producers[name].votes + d, d, tab1);
      ChangeVotesRow(s1, name, s1.producers[name].votes + d, d, tab1);
    }
  }

  // ---------- one voter ----------

  /** How the sums over voters move when one row is replaced. */
  lemma VoterStored(voters: map<Name, Voter>, v: Name, row: Voter)
    requires v in voters
    ensures forall p: Name ::
      SumOf(voters[v := row], LastTo(p)) == SumOf(voters, LastTo(p)) - LastTo(p)(voters[v]) + LastTo(p)(row)
    ensures forall q: Name ::
      SumOf(voters[v := row], DirectTo(q)) == SumOf(voters, DirectTo(q)) - DirectTo(q)(voters[v]) + DirectTo(q)(row)
  {
    hide SumOf;
    forall p: Name
      ensures SumOf(voters[v := row], LastTo(p)) == SumOf(voters, LastTo(p)) - LastTo(p)(voters[v]) + LastTo(p)(row)
      ensures SumOf(voters[v := row], DirectTo(p))
        == SumOf(voters, DirectTo(p)) - DirectTo(p)(voters[v]) + DirectTo(p)(row)
    {
      SumStore(voters, LastTo(p), v, row);
      SumStore(voters, DirectTo(p), v, row);
    }
  }

  /** A voter's weight is within what its proxy, or its producers, hold. */
  lemma WeightWithinSums(s: VoteState, v: Name, p: Name)
    requires VotersOk(s) && v in s.voters
    ensures SumOf(s.voters, LastTo(p)) >= LastTo(p)(s.voters[v]) >= 0
    ensures SumOf(s.voters, DirectTo(p)) >= DirectTo(p)(s.voters[v]) >= 0
  {
    hide SumOf;
    forall u | u in s.voters
      ensures s.voters[u].lastWeight >= 0
    {
      assert VoterOk(s.voters[u], u, s.voters, s.producers);
    }
    SumBoundsRow(s.voters, LastTo(p), v);
    SumBoundsRow(s.voters, DirectTo(p), v);
  }

  // ---------- the proxy graph ----------

  /** `p` is reached from `v` by one or more proxies. */
  ghost predicate OnChain(edges: map<Name, Name>, v: Name, p: Name)
    requires Acyclic(edges)
    decreases Height(edges, v)
  {
    v in edges && (edges[v] == p || (HeightFalls(edges, v); OnChain(edges, edges[v], p)))
  }

  lemma {:induction false} ChainFalls(edges: map<Name, Name>, v: Name, p: Name)
    requires Acyclic(edges) && OnChain(edges, v, p)
    ensures Height(edges, p) < Height(edges, v)
    decreases Height(edges, v)
  {
    HeightFalls(edges, v);
    if edges[v] != p {
      ChainFalls(edges, edges[v], p);
    }
  }

  /** A voter without a proxy may point to an account without one: no cycle can close. */
  lemma NewEdgeAcyclic(edges: map<Name, Name>, v: Name, p: Name)
    requires Acyclic(edges) && p !in edges && p != v
    ensures Acyclic(edges[v := p])
  {
    var rank :| RankOk(edges, rank);
    var names := rank.Keys + {v, p};
    var rank1 := map x | x in names :: if x == p then 0 else (if x in rank then rank[x] else 0) + 1;
    assert RankOk(edges[v := p], rank1);
  }

  lemma FewerEdgesAcyclic(edges: map<Name, Name>, fewer: map<Name, Name>)
    requires Acyclic(edges) && forall v | v in fewer :: v in edges && edges[v] == fewer[v]
    ensures Acyclic(fewer)
  {
    var rank :| RankOk(edges, rank);
    assert RankOk(fewer, rank);
  }
}
