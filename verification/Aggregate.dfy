/** The equations of the lazy vote-pay accounting, whatever the sign of a producer's votes: how far
    the global counters lag behind the rows, step by step, and which step keeps them exact. */
module Aggregate {
  import opened Basics
  import opened Arithmetic
  import opened Tables
  import opened Voting
  import opened VotingInvariant
  import opened VotingProofs
  import opened VoteCast
  import opened ProducerPay
  import opened ProxyGraph
  import opened VotePayRuns

  /** The global rate is the sum of the counted votes, the global share the sum of the up-to-date
      shares, and uncounted shares are zero, once `tab` is settled. */
  ghost predicate Equations(s: VoteState, tab: Tab) {
    && s.lastVpay <= s.now && s.totalShare >= 0 && s.shareRate >= 0
    && s.shareRate + tab.rate == SumOf(s.producers, CountedVotes)
    && s.totalShare + s.shareRate * (s.now - s.lastVpay) - tab.inactive == SumOf(s.producers, SharesAt(s.now))
    && (forall q | q in s.producers :: RowSound(s.producers[q], s.now))
  }

  /** The accounting is exact and nobody's votes are negative. */
  lemma PayIsEquations(s: VoteState)
    ensures VotePay(s, Tab(0, 0)) <==>
      Equations(s, Tab(0, 0)) && forall q | q in s.producers :: s.producers[q].votes >= 0
  {
    hide SumOf, RowSound;
    if VotePay(s, Tab(0, 0)) {
      RateNonNegative(s);
    }
  }

  lemma VotersDoNotCount(s: VoteState, s1: VoteState, tab: Tab)
    requires s1 == s.(voters := s1.voters)
    ensures Equations(s1, tab) <==> Equations(s, tab)
  {
    hide SumOf, RowSound;
  }

  lemma RowOfEquations(s: VoteState, name: Name, tab: Tab)
    requires Equations(s, tab) && name in s.producers
    ensures RowSound(s.producers[name], s.now)
  {
  }

  /** What the global rate and the global share lack from the sums they stand for. */
  datatype Lag = Lag(rate: int, share: int)

  const LEVEL: Lag := Lag(0, 0)

  /** `tab` with what the counters lack. */
  function Off(tab: Tab, lag: Lag): Tab {
    Tab(tab.rate + lag.rate, tab.inactive - lag.share)
  }

  /** The accounting is exact but for `lag`. */
  ghost predicate Lagging(s: VoteState, lag: Lag) {
    Equations(s, Off(Tab(0, 0), lag))
  }

  lemma LevelMeans(s: VoteState)
    ensures Lagging(s, LEVEL) <==> Equations(s, Tab(0, 0))
  {
    hide SumOf, RowSound, CountedVotes, SharesAt;
  }

  /** A state has only one lag. */
  lemma OneLag(s: VoteState, lag: Lag, other: Lag)
    requires Lagging(s, lag)
    ensures Lagging(s, other) <==> lag == other
  {
    hide SumOf, RowSound;
  }

  // ---------- one row ----------

  /** A counted row with negative votes accrues nothing, so it has to be up to date. */
  predicate Timely(p: Producer, now: nat) {
    Counted(p) && p.votes < 0 ==> p.lastUpdate == now
  }

  /** What such a row fails to lose when it is brought up to date. */
  function Late(p: Producer, now: nat): int {
    if Counted(p) && p.votes < 0 then -p.votes * (now - p.lastUpdate) else 0
  }

  lemma LateMeans(p: Producer, now: nat)
    requires RowSound(p, now)
    ensures Late(p, now) >= 0 && (Late(p, now) == 0 <==> Timely(p, now))
  {
    if Counted(p) && p.votes < 0 {
      ProductSign(-p.votes, now - p.lastUpdate);
    }
  }

  lemma ProductSign(a: int, b: int)
    requires a > 0 && b >= 0
    ensures a * b >= 0 && (a * b == 0 <==> b == 0)
  {
    if b > 0 {
      MulPositive(a, b);
    }
  }

  /** One row brought up to date with any new votes. */
  lemma RowTurn(p: Producer, now: nat, votes: int)
    requires RowSound(p, now)
    ensures var crossed := p.lastClaim + THREE_DAYS <= now;
      var updatedAfter := p.lastClaim + THREE_DAYS <= p.lastUpdate;
      var share := UpdateShare(
        p.(votes := votes), now, if updatedAfter then 0 else p.votes, crossed && !updatedAfter).1;
      var p1 := Updated(p, now, votes);
      && RowSound(p1, now) && p1.votes == votes && (updatedAfter ==> crossed)
      && CountedVotes(p1) - CountedVotes(p)
         == (if !crossed then votes - p.votes else if !updatedAfter then -p.votes else 0)
      && SharesAt(now)(p1) - SharesAt(now)(p) == Late(p, now) - (if crossed && !updatedAfter then share else 0)
  {
    AccruedAtMost(p, now);
    assert votes * (now - now) == 0;
  }

  lemma AccruedAtMost(p: Producer, now: nat)
    requires p.lastUpdate <= now
    ensures p.votes >= 0 ==>
      && p.votes * (now - p.lastUpdate) >= 0
      && (if p.votes > 0 && now > p.lastUpdate then p.votes * (now - p.lastUpdate) else 0)
         == p.votes * (now - p.lastUpdate)
    ensures p.votes < 0 ==> -p.votes * (now - p.lastUpdate) == -(p.votes * (now - p.lastUpdate))
  {
    if p.votes >= 0 {
      MulMono(0, p.votes, now - p.lastUpdate);
    }
  }

  /** What a clamp swallows of a change to a counted row's votes, and what a late row fails to lose,
      the counters lack after one turn of a loop. */
  function AfterTurn(p: Producer, now: nat, votes: int, d: int, lag: Lag): Lag {
    Lag(lag.rate + if p.lastClaim + THREE_DAYS <= now then 0 else votes - (p.votes + d), lag.share + Late(p, now))
  }

  lemma TurnLag(s: VoteState, name: Name, votes: int, d: int, tab: Tab, lag: Lag)
    requires Equations(s, Off(tab, lag)) && name in s.producers
    ensures var (s1, tab1) := ChangeVotes(s, name, votes, d, tab);
      Equations(s1, Off(tab1, AfterTurn(s.producers[name], s.now, votes, d, lag)))
  {
    hide SumOf, RowSound, SharesAt, CountedVotes, UpdateShare, Late;
    var p := s.producers[name];
    RowTurn(p, s.now, votes);
    var p1 := Updated(p, s.now, votes);
    SumStore(s.producers, CountedVotes, name, p1);
    SumStore(s.producers, SharesAt(s.now), name, p1);
  }

  /** Changing a producer's votes by `d` keeps the equations if and only if its row was up to date,
      or its votes were not negative, or did not count any more. */
  lemma ChangeVotesExact(s: VoteState, name: Name, d: int, tab: Tab)
    requires Equations(s, tab) && name in s.producers
    ensures var (s1, tab1) := ChangeVotes(s, name, s.producers[name].votes + d, d, tab);
      Equations(s1, tab1) <==> Timely(s.producers[name], s.now)
  {
    hide ChangeVotes, Equations, Late, Timely;
    assert Off(tab, LEVEL) == tab;
    var p := s.producers[name];
    TurnLag(s, name, p.votes + d, d, tab, LEVEL);
    assert RowSound(p, s.now) by { RowOfEquations(s, name, tab); }
    LateMeans(p, s.now);
    var (s1, tab1) := ChangeVotes(s, name, p.votes + d, d, tab);
    GapMatters(s1, tab1, Late(p, s.now));
  }

  lemma GapMatters(s: VoteState, tab: Tab, share: int)
    requires Equations(s, Off(tab, Lag(0, share)))
    ensures Equations(s, tab) <==> share == 0
  {
    hide SumOf, RowSound;
  }

  // ---------- settling ----------

  /** Settling clamps each counter at zero: it lags no further behind than its sum. */
  ghost function AfterSettling(rows: map<Name, Producer>, now: nat, lag: Lag): Lag {
    Lag(Min(lag.rate, SumOf(rows, CountedVotes)), Min(lag.share, SumOf(rows, SharesAt(now))))
  }

  lemma SettleLag(s: VoteState, tab: Tab, lag: Lag)
    requires Equations(s, Off(tab, lag))
    ensures var s1 := UpdateTotalShare(s, -tab.inactive, tab.rate);
      && Lagging(s1, AfterSettling(s.producers, s.now, lag))
      && s1 == s.(totalShare := s1.totalShare, shareRate := s1.shareRate, lastVpay := s.now)
  {
    hide SumOf, RowSound, SharesAt, CountedVotes;
    MulMono(0, s.now - s.lastVpay, s.shareRate);
  }

  /** Settling an exact accounting: neither clamp fires. */
  lemma LevelSettles(s: VoteState)
    requires Equations(s, Tab(0, 0))
    ensures AfterSettling(s.producers, s.now, LEVEL) == LEVEL
  {
    hide SumOf, RowSound;
    MulMono(0, s.now - s.lastVpay, s.shareRate);
  }

  /** Exact rows settle exactly if and only if neither sum is negative; a counter that lags catches
      up only by being clamped to a sum of zero. */
  ghost predicate RowsExact(rows: map<Name, Producer>, now: nat, drawn: bool, timely: bool) {
    && SumOf(rows, CountedVotes) >= 0 && SumOf(rows, SharesAt(now)) >= 0
    && (drawn || SumOf(rows, CountedVotes) == 0)
    && (timely || SumOf(rows, SharesAt(now)) == 0)
  }

  lemma RowsExactMeans(rows: map<Name, Producer>, now: nat, lag: Lag)
    requires lag.rate >= 0 && lag.share >= 0
    ensures AfterSettling(rows, now, lag) == LEVEL <==> RowsExact(rows, now, lag.rate == 0, lag.share == 0)
  {
    hide SumOf;
  }

  // ---------- late rows ----------

  predicate AllTimely(s: VoteState, names: set<Name>) {
    forall q | q in names && q in s.producers :: Timely(s.producers[q], s.now)
  }

  function Lates(s: VoteState, names: set<Name>): map<Name, int> {
    map q | q in names && q in s.producers :: Late(s.producers[q], s.now)
  }

  function Itself(x: int): int { x }

  /** What the late rows among the named ones fail to lose. */
  ghost function LateSum(s: VoteState, names: set<Name>): int {
    SumOf(Lates(s, names), Itself)
  }

  lemma LateSumMeans(s: VoteState, names: set<Name>)
    requires forall q | q in s.producers :: RowSound(s.producers[q], s.now)
    ensures LateSum(s, names) >= 0 && (LateSum(s, names) == 0 <==> AllTimely(s, names))
  {
    hide SumOf, RowSound, Late, Timely;
    var lates := Lates(s, names);
    forall q | q in lates
      ensures Itself(lates[q]) >= 0 && (lates[q] == 0 <==> Timely(s.producers[q], s.now))
    {
      LateMeans(s.producers[q], s.now);
    }
    SumNonNegative(lates, Itself);
    if AllTimely(s, names) {
      AllZero(lates, Itself);
    } else {
      var q :| q in names && q in s.producers && !Timely(s.producers[q], s.now);
      SumBoundsRow(lates, Itself, q);
    }
  }

  lemma NobodyLate(s: VoteState, names: set<Name>)
    requires names == {}
    ensures LateSum(s, names) == 0
  {
    assert Lates(s, names) == map[];
  }

  lemma OneLate(s: VoteState, s1: VoteState, names: set<Name>, name: Name)
    requires name in names && name in s.producers && s1.now == s.now && s1.producers.Keys == s.producers.Keys
    requires forall q | q in s.producers && q != name :: s1.producers[q] == s.producers[q]
    ensures LateSum(s, names) == LateSum(s1, names - {name}) + Late(s.producers[name], s.now)
  {
    hide SumOf, Late;
    SumSplit(Lates(s, names), Itself, name);
    assert Lates(s1, names - {name}) == Lates(s, names) - {name};
  }

  lemma NotLate(s: VoteState, names: set<Name>, name: Name)
    requires name !in s.producers
    ensures LateSum(s, names) == LateSum(s, names - {name})
  {
    hide SumOf, Late;
    assert Lates(s, names - {name}) == Lates(s, names);
  }

  // ---------- propagation ----------

  function Members(names: seq<Name>): set<Name> {
    set q | q in names
  }

  /** The lag after the producer loop of a propagation and its settling. */
  ghost function AfterSpread(s: VoteState, names: seq<Name>, d: int, lag: Lag): Lag {
    AfterSettling(SpreadRows(s, names, d), s.now, Lag(lag.rate, lag.share + LateSum(s, Members(names))))
  }

  /** The producer loop puts the shares behind by what late rows failed to lose. */
  lemma {:induction false} SpreadLag(s: VoteState, names: seq<Name>, d: int, lag: Lag)
    requires Lagging(s, lag) && Ascending(names) && Spread(s, names, d, Tab(0, 0)).Ok?
    ensures var (s1, tab) := Spread(s, names, d, Tab(0, 0)).value;
      Equations(s1, Off(tab, Lag(lag.rate, lag.share + LateSum(s, Members(names)))))
  {
    hide Equations, ChangeVotes, Late, Ascending, SpreadRows, Members, LateSum;
    if names == [] {
      assert Members(names) == {} by { NoMembers(names); }
      NobodyLate(s, Members(names));
    } else {
      var rest, name := names[..|names| - 1], names[|names| - 1];
      assert names == rest + [name];
      AscendingDistinct(names);
      SpreadLag(s, rest, d, lag);
      var (s1, tab1) := Spread(s, rest, d, Tab(0, 0)).value;
      SpreadLeaves(s, rest, d, Tab(0, 0));
      assert name in s.producers && s1.producers[name] == s.producers[name] by { OutsideSpread(s, rest, d, name); }
      var p := s.producers[name];
      TurnLag(s1, name, p.votes + d, d, tab1, Lag(lag.rate, lag.share + LateSum(s, Members(rest))));
      LastMember(rest, name);
      OneLate(s, s, Members(names), name);
    }
  }

  lemma NoMembers(names: seq<Name>)
    requires names == []
    ensures Members(names) == {}
  {
  }

  lemma LastMember(names: seq<Name>, name: Name)
    requires name !in names
    ensures name in Members(names + [name]) && Members(names + [name]) - {name} == Members(names)
  {
  }

  lemma OutsideSpread(s: VoteState, names: seq<Name>, d: int, name: Name)
    requires name !in names && name in SpreadRows(s, names, d)
    ensures name in s.producers && SpreadRows(s, names, d)[name] == s.producers[name]
  {
    hide Updated;
  }

  lemma SpreadSettled(s: VoteState, names: seq<Name>, d: int, lag: Lag)
    requires Lagging(s, lag) && Ascending(names) && Spread(s, names, d, Tab(0, 0)).Ok?
    ensures var (s1, tab) := Spread(s, names, d, Tab(0, 0)).value;
      Lagging(UpdateTotalShare(s1, -tab.inactive, tab.rate), AfterSpread(s, names, d, lag))
  {
    hide Lagging, Equations, UpdateTotalShare, Ascending, SpreadRows, LateSum, Members, Spread, AfterSettling;
    SpreadLag(s, names, d, lag);
    SpreadLeaves(s, names, d, Tab(0, 0));
    var (s1, tab) := Spread(s, names, d, Tab(0, 0)).value;
    SettleLag(s1, tab, Lag(lag.rate, lag.share + LateSum(s, Members(names))));
  }

  /** Where a propagation lands: the list whose producers receive a change, and the change. None if
      it is dropped on its way. */
  ghost function Lands(s: VoteState, v: Name): Option<(seq<Name>, int)>
    requires Acyclic(Edges(s.voters)) && v in s.voters
    decreases Height(Edges(s.voters), v)
  {
    var voter := s.voters[v];
    var d := WeightOf(s, voter) - voter.lastWeight;
    if !Noticeable(d) then None
    else if voter.proxy == NO_NAME then Some((voter.producers, d))
    else if voter.proxy !in s.voters then None
    else
      HeightFalls(Edges(s.voters), v);
      Lands(AddProxied(s, voter.proxy, d), voter.proxy)
  }

  /** The lag after a propagation: only its landing matters. */
  ghost function AfterPropagation(s: VoteState, v: Name, lag: Lag): Lag
    requires Acyclic(Edges(s.voters)) && v in s.voters
  {
    match Lands(s, v)
    case None => lag
    case Some((names, d)) => AfterSpread(s, names, d, lag)
  }

  lemma LandsStep(s: VoteState, v: Name, w: int, d: int)
    requires Acyclic(Edges(s.voters)) && Finds(s, v, w, d)
    ensures !Noticeable(d) ==> Lands(s, v) == None
    ensures Noticeable(d) && s.voters[v].proxy == NO_NAME ==> Lands(s, v) == Some((s.voters[v].producers, d))
    ensures Noticeable(d) && s.voters[v].proxy != NO_NAME && s.voters[v].proxy in s.voters ==>
      Lands(s, v) == Lands(AddProxied(s, s.voters[v].proxy, d), s.voters[v].proxy)
  {
    hide Acyclic, AddProxied, WeightOf, Noticeable, Edges;
  }

  lemma VotersDoNotSpread(s: VoteState, s1: VoteState, names: seq<Name>, d: int, lag: Lag)
    requires s1 == s.(voters := s1.voters)
    ensures AfterSpread(s1, names, d, lag) == AfterSpread(s, names, d, lag)
  {
    hide Updated, Late, SumOf;
    assert SpreadRows(s1, names, d) == SpreadRows(s, names, d);
    assert Lates(s1, Members(names)) == Lates(s, Members(names));
  }

  lemma SameLanding(s: VoteState, s1: VoteState, v: Name, lag: Lag)
    requires s1 == s.(voters := s1.voters) && Acyclic(Edges(s1.voters)) && v in s1.voters
    ensures AfterPropagation(s1, v, lag) ==
      match Lands(s1, v) case None => lag case Some((names, d)) => AfterSpread(s, names, d, lag)
  {
    hide AfterSpread, Lands, Acyclic, Edges;
    match Lands(s1, v)
    case None =>
    case Some((names, d)) => VotersDoNotSpread(s, s1, names, d, lag);
  }

  lemma {:induction false} PropagateLag(s: VoteState, v: Name, lag: Lag)
    requires Acyclic(Edges(s.voters)) && Proxies(s.voters) && v in s.voters
    requires Lagging(s, lag) && Propagate(s, v).Ok?
    ensures Lagging(Propagate(s, v).value, AfterPropagation(s, v, lag))
    decreases Height(Edges(s.voters), v)
  {
    hide Acyclic, WeightOf, Spread, UpdateTotalShare, Equations, Proxies, Ascending, Propagate, Height, Edges,
         Noticeable, Lands, AfterSpread;
    var voter := s.voters[v];
    var w := WeightOf(s, voter);
    var d := w - voter.lastWeight;
    LandsStep(s, v, w, d);
    var after := Off(Tab(0, 0), AfterPropagation(s, v, lag));
    if !Noticeable(d) {
      PropagateDropped(s, v, w, d);
      VotersDoNotCount(s, Propagate(s, v).value, after);
    } else if voter.proxy != NO_NAME {
      PropagatePassed(s, v, w, d);
      ProxyHigher(s, v);
      var s1 := AddProxied(s, voter.proxy, d);
      VotersDoNotCount(s, s1, Off(Tab(0, 0), lag));
      AddProxiedShape(s, voter.proxy, d);
      ShapeKeepsProxies(s.voters, s1.voters);
      PropagateLag(s1, voter.proxy, lag);
      VotersDoNotCount(Propagate(s1, voter.proxy).value, Propagate(s, v).value, after);
      SameLanding(s, s1, voter.proxy, lag);
    } else {
      PropagateSpread(s, v, w, d);
      assert Ascending(voter.producers) by { ListOf(s.voters, v); }
      SpreadSettled(s, voter.producers, d, lag);
      var (s1, tab) := Spread(s, voter.producers, d, Tab(0, 0)).value;
      VotersDoNotCount(UpdateTotalShare(s1, -tab.inactive, tab.rate), Propagate(s, v).value, after);
    }
  }

  ghost predicate LandsExact(s: VoteState, v: Name)
    requires Acyclic(Edges(s.voters)) && v in s.voters
  {
    match Lands(s, v)
    case None => true
    case Some((names, d)) => RowsExact(SpreadRows(s, names, d), s.now, true, AllTimely(s, Members(names)))
  }

  /** A propagation keeps the equations if and only if the change it lands with does: whatever it
      drops, and whatever the sign of the votes it leaves. */
  lemma PropagateEquations(s: VoteState, v: Name)
    requires Acyclic(Edges(s.voters)) && Proxies(s.voters) && v in s.voters
    requires Equations(s, Tab(0, 0)) && Propagate(s, v).Ok?
    ensures Equations(Propagate(s, v).value, Tab(0, 0)) <==> LandsExact(s, v)
  {
    hide Acyclic, Equations, Proxies, Propagate, Edges, Lagging, AfterPropagation, LandsExact;
    LevelMeans(s);
    PropagateLag(s, v, LEVEL);
    var s1 := Propagate(s, v).value;
    LevelMeans(s1);
    OneLag(s1, AfterPropagation(s, v, LEVEL), LEVEL);
    LandsLevel(s, v);
  }

  lemma LandsLevel(s: VoteState, v: Name)
    requires Acyclic(Edges(s.voters)) && v in s.voters && Equations(s, Tab(0, 0))
    ensures AfterPropagation(s, v, LEVEL) == LEVEL <==> LandsExact(s, v)
  {
    hide Acyclic, Equations, Edges, Lands, SpreadRows, AfterSettling, RowsExact, AllTimely, LateSum, Members;
    if Lands(s, v).Some? {
      var (names, d) := Lands(s, v).value;
      RowsOfEquations(s);
      LateSumMeans(s, Members(names));
      RowsExactMeans(SpreadRows(s, names, d), s.now, Lag(0, LateSum(s, Members(names))));
    }
  }

  lemma RowsOfEquations(s: VoteState)
    requires Equations(s, Tab(0, 0))
    ensures forall q | q in s.producers :: RowSound(s.producers[q], s.now)
  {
  }

  /** From an accounting in which nobody's votes are negative, the guard of the rate's clamp decides:
      the counted votes that the loop leaves must not sum to less than zero. */
  lemma SpreadFromPay(s: VoteState, names: seq<Name>, d: int)
    requires VotePay(s, Tab(0, 0))
    ensures RowsExact(SpreadRows(s, names, d), s.now, true, AllTimely(s, Members(names)))
            <==> SumOf(SpreadRows(s, names, d), CountedVotes) >= 0
  {
    hide SumOf, Updated;
    var rows := SpreadRows(s, names, d);
    forall q | q in rows
      ensures SharesAt(s.now)(rows[q]) >= 0
    {
      UpToDateShare(s.producers[q], s.now, s.producers[q].votes + d);
      ShareNonNegative(s.producers[q], s.now);
    }
    SumNonNegative(rows, SharesAt(s.now));
  }

  lemma UpToDateShare(p: Producer, now: nat, votes: int)
    requires ProducerOk(p, now)
    ensures SharesAt(now)(Updated(p, now, votes)) >= 0
  {
    RowTurn(p, now, votes);
    assert votes * (now - now) == 0;
  }

  lemma PropagateFromPay(s: VoteState, v: Name)
    requires Acyclic(Edges(s.voters)) && Proxies(s.voters) && v in s.voters
    requires VotePay(s, Tab(0, 0)) && Propagate(s, v).Ok?
    ensures Equations(Propagate(s, v).value, Tab(0, 0)) <==>
      match Lands(s, v)
      case None => true
      case Some((names, d)) => SumOf(SpreadRows(s, names, d), CountedVotes) >= 0
  {
    hide Acyclic, VotePay, Equations, Proxies, Propagate, Edges, Lands, RowsExact, SumOf, SpreadRows;
    assert Equations(s, Tab(0, 0)) by { PayIsEquations(s); }
    PropagateEquations(s, v);
    match Lands(s, v)
    case None =>
    case Some((names, d)) => SpreadFromPay(s, names, d);
  }

  // ---------- the producer loop of a vote ----------

  function Swallows(s: VoteState, deltas: map<Name, Delta>): map<Name, int> {
    map q | q in deltas && q in s.producers :: Swallowed(s, q, deltas[q].amount)
  }

  /** What the clamps swallow of a vote's changes to counted producers. */
  ghost function SwallowedSum(s: VoteState, deltas: map<Name, Delta>): int {
    SumOf(Swallows(s, deltas), Itself)
  }

  /** The lag after the producer loop of a vote and its settling. */
  ghost function AfterLoop(s: VoteState, deltas: map<Name, Delta>, lag: Lag): Lag {
    AfterSettling(VoteRows(s, deltas), s.now,
      Lag(lag.rate + SwallowedSum(s, deltas), lag.share + LateSum(s, deltas.Keys)))
  }

  lemma SwallowedMeans(s: VoteState, deltas: map<Name, Delta>)
    ensures SwallowedSum(s, deltas) >= 0 && (SwallowedSum(s, deltas) == 0 <==> Drawn(s, deltas))
  {
    hide SumOf;
    var all := Swallows(s, deltas);
    SumNonNegative(all, Itself);
    if Drawn(s, deltas) {
      AllZero(all, Itself);
    } else {
      var q :| q in deltas && q in s.producers && Swallowed(s, q, deltas[q].amount) > 0;
      SumBoundsRow(all, Itself, q);
    }
  }

  lemma NothingSwallowed(s: VoteState, deltas: map<Name, Delta>)
    requires deltas.Keys == {}
    ensures SwallowedSum(s, deltas) == 0
  {
    assert Swallows(s, deltas) == map[];
  }

  lemma OneSwallowed(s: VoteState, s1: VoteState, deltas: map<Name, Delta>, name: Name)
    requires name in deltas && name in s.producers && SameProducers(s, s1) && s1.now == s.now
    requires forall q | q in s.producers && q != name :: s1.producers[q] == s.producers[q]
    ensures SwallowedSum(s, deltas) == SwallowedSum(s1, deltas - {name}) + Swallowed(s, name, deltas[name].amount)
  {
    hide SumOf;
    SumSplit(Swallows(s, deltas), Itself, name);
    assert forall q | q in deltas && q != name :: q in deltas - {name} && deltas[q] == (deltas - {name})[q];
    assert Swallows(s1, deltas - {name}) == Swallows(s, deltas) - {name};
  }

  lemma SkipSwallowed(s: VoteState, deltas: map<Name, Delta>, name: Name)
    requires name in deltas && name !in s.producers
    ensures SwallowedSum(s, deltas) == SwallowedSum(s, deltas - {name})
  {
    hide SumOf;
    assert forall q | q in deltas && q != name :: q in deltas - {name} && deltas[q] == (deltas - {name})[q];
    assert Swallows(s, deltas - {name}) == Swallows(s, deltas);
  }

  lemma TurnSwallows(s: VoteState, name: Name, d: int, lag: Lag)
    requires name in s.producers
    ensures var p := s.producers[name];
      AfterTurn(p, s.now, Max(0, p.votes + d), d, lag)
      == Lag(lag.rate + Swallowed(s, name, d), lag.share + Late(p, s.now))
  {
    hide Late;
  }

  lemma {:induction false} LoopLag(s: VoteState, deltas: map<Name, Delta>, voting: bool, tab: Tab, lag: Lag)
    requires Equations(s, Off(tab, lag)) && ApplyDeltas(s, deltas, voting, tab).Ok?
    ensures var (s1, tab1) := ApplyDeltas(s, deltas, voting, tab).value;
      Equations(s1, Off(tab1, Lag(lag.rate + SwallowedSum(s, deltas), lag.share + LateSum(s, deltas.Keys))))
    decreases |deltas.Keys|
  {
    hide Equations, ChangeVotes, SwallowedSum, Swallowed, Off, Late, LateSum, AfterTurn;
    var after := Lag(lag.rate + SwallowedSum(s, deltas), lag.share + LateSum(s, deltas.Keys));
    if deltas.Keys == {} {
      NothingSwallowed(s, deltas);
      NobodyLate(s, deltas.Keys);
    } else {
      var name := Least(deltas.Keys, n => 0);
      var rest := deltas - {name};
      assert rest.Keys == deltas.Keys - {name};
      if name in s.producers {
        var p, d := s.producers[name], deltas[name].amount;
        var votes := Max(0, p.votes + d);
        TurnLag(s, name, votes, d, tab, lag);
        TurnSwallows(s, name, d, lag);
        ChangeVotesRow(s, name, votes, d, tab);
        var (s1, tab1) := ChangeVotes(s, name, votes, d, tab);
        assert s1.now == s.now by { ChangeVotesLeaves(s, name, votes, d, tab); }
        var lag1 := Lag(lag.rate + Swallowed(s, name, d), lag.share + Late(p, s.now));
        LoopLag(s1, rest, voting, tab1, lag1);
        assert after == Lag(lag1.rate + SwallowedSum(s1, rest), lag1.share + LateSum(s1, rest.Keys)) by {
          OneSwallowed(s, s1, deltas, name);
          OneLate(s, s1, deltas.Keys, name);
        }
      } else {
        LoopLag(s, rest, voting, tab, lag);
        assert after == Lag(lag.rate + SwallowedSum(s, rest), lag.share + LateSum(s, rest.Keys)) by {
          SkipSwallowed(s, deltas, name);
          NotLate(s, deltas.Keys, name);
        }
      }
    }
  }

  lemma LoopSettled(s: VoteState, deltas: map<Name, Delta>, voting: bool, lag: Lag)
    requires Lagging(s, lag) && ApplyDeltas(s, deltas, voting, Tab(0, 0)).Ok?
    ensures Lagging(Settled(s, deltas, voting), AfterLoop(s, deltas, lag))
  {
    hide Equations, ApplyDeltas, UpdateTotalShare, AfterSettling, VoteRows, LateSum, SwallowedSum;
    LoopLag(s, deltas, voting, Tab(0, 0), lag);
    LoopLeaves(s, deltas, voting, Tab(0, 0));
    var (s1, tab) := ApplyDeltas(s, deltas, voting, Tab(0, 0)).value;
    SettleLag(s1, tab, Lag(lag.rate + SwallowedSum(s, deltas), lag.share + LateSum(s, deltas.Keys)));
  }

  ghost predicate DeltasExact(s: VoteState, deltas: map<Name, Delta>) {
    RowsExact(VoteRows(s, deltas), s.now, Drawn(s, deltas), AllTimely(s, deltas.Keys))
  }

  /** The producer loop of a vote, settled, keeps the equations if and only if the sums it leaves are
      not negative, no counted producer is charged more than it holds unless no counted votes are
      left, and no late row is touched unless no shares are left. */
  lemma DeltasEquations(s: VoteState, deltas: map<Name, Delta>, voting: bool)
    requires Equations(s, Tab(0, 0)) && ApplyDeltas(s, deltas, voting, Tab(0, 0)).Ok?
    ensures Equations(Settled(s, deltas, voting), Tab(0, 0)) <==> DeltasExact(s, deltas)
  {
    hide Equations, ApplyDeltas, Settled, Lagging, AfterLoop, DeltasExact;
    LevelMeans(s);
    LoopSettled(s, deltas, voting, LEVEL);
    var s1 := Settled(s, deltas, voting);
    LevelMeans(s1);
    OneLag(s1, AfterLoop(s, deltas, LEVEL), LEVEL);
    DeltasLevel(s, deltas);
  }

  lemma DeltasLevel(s: VoteState, deltas: map<Name, Delta>)
    requires Equations(s, Tab(0, 0))
    ensures AfterLoop(s, deltas, LEVEL) == LEVEL <==> DeltasExact(s, deltas)
  {
    hide Equations, Drawn, AfterSettling, RowsExact, VoteRows, AllTimely, LateSum, SwallowedSum;
    RowsOfEquations(s);
    LateSumMeans(s, deltas.Keys);
    SwallowedMeans(s, deltas);
    RowsExactMeans(VoteRows(s, deltas), s.now, Lag(SwallowedSum(s, deltas), LateSum(s, deltas.Keys)));
  }

  // ---------- claims ----------

  /** The rows after a claim: the claimant starts over, counted, without shares. */
  function ClaimRows(s: VoteState, owner: Name): map<Name, Producer>
    requires owner in s.producers
  {
    s.producers[owner := s.producers[owner].(share := 0, lastUpdate := s.now, lastClaim := s.now, unpaidBlocks := 0)]
  }

  /** The lag after a claim, which settles once before the claimant's row and once after it, and
      before the first revision only after it. */
  ghost function AfterClaim(s: PayState, owner: Name, lag: Lag): Lag
    requires owner in s.votes.producers
  {
    var v := s.votes;
    var first := if s.revision > 0 then AfterSettling(v.producers, v.now, lag) else lag;
    AfterSettling(ClaimRows(v, owner), v.now, Lag(first.rate, first.share + Late(v.producers[owner], v.now)))
  }

  /** The claimant's row put in place. */
  lemma ClaimRowLag(v: VoteState, owner: Name, lag: Lag)
    requires Lagging(v, lag) && owner in v.producers
    ensures var p := v.producers[owner];
      var updatedAfter := p.lastClaim + THREE_DAYS <= p.lastUpdate;
      var (p1, share) := UpdateShare(p, v.now, if updatedAfter then 0 else p.votes, true);
      && ClaimRows(v, owner) == v.producers[owner := p1.(lastClaim := v.now, unpaidBlocks := 0)]
      && Equations(v.(producers := ClaimRows(v, owner)),
           Off(Tab(if updatedAfter then p.votes else 0, share), Lag(lag.rate, lag.share + Late(p, v.now))))
  {
    hide SumOf;
    var p := v.producers[owner];
    var p2 := p.(share := 0, lastUpdate := v.now, lastClaim := v.now, unpaidBlocks := 0);
    AccruedAtMost(p, v.now);
    assert p.votes * (v.now - v.now) == 0;
    SumStore(v.producers, CountedVotes, owner, p2);
    SumStore(v.producers, SharesAt(v.now), owner, p2);
  }

  lemma ClaimLag(s: PayState, owner: Name, lag: Lag)
    requires Lagging(s.votes, lag) && owner in s.votes.producers
    ensures Lagging(ClaimVotes(s, owner).0, AfterClaim(s, owner, lag))
  {
    hide Equations, UpdateShare, UpdateTotalShare, VotePayment, Late, AfterSettling;
    var v := s.votes;
    var p := v.producers[owner];
    SettleLag(v, Tab(0, 0), lag);
    var v1 := if s.revision > 0 then UpdateTotalShare(v, 0, 0) else v;
    var first := if s.revision > 0 then AfterSettling(v.producers, v.now, lag) else lag;
    ClaimRowLag(v1, owner, first);
    var updatedAfter := p.lastClaim + THREE_DAYS <= p.lastUpdate;
    var (p1, share) := UpdateShare(p, v.now, if updatedAfter then 0 else p.votes, true);
    var a := v1.(producers := ClaimRows(v1, owner));
    var tab := Tab(if updatedAfter then p.votes else 0, share);
    SettleLag(a, tab, Lag(first.rate, first.share + Late(p, v.now)));
    TotalsCommute(v1, a, share, tab.rate);
  }

  ghost predicate ClaimExact(s: VoteState, owner: Name)
    requires owner in s.producers
  {
    RowsExact(ClaimRows(s, owner), s.now, true, Timely(s.producers[owner], s.now))
  }

  /** A pay-out keeps the equations if and only if the sums it leaves are not negative, and the
      claimant's row was not late unless no shares are left. */
  lemma ClaimEquations(s: PayState, owner: Name)
    requires Equations(s.votes, Tab(0, 0)) && owner in s.votes.producers
    ensures Equations(ClaimVotes(s, owner).0, Tab(0, 0)) <==> ClaimExact(s.votes, owner)
  {
    hide Equations, ClaimVotes, Lagging, AfterClaim, ClaimExact;
    LevelMeans(s.votes);
    ClaimLag(s, owner, LEVEL);
    var v1 := ClaimVotes(s, owner).0;
    LevelMeans(v1);
    OneLag(v1, AfterClaim(s, owner, LEVEL), LEVEL);
    ClaimLevel(s, owner);
  }

  lemma ClaimLevel(s: PayState, owner: Name)
    requires Equations(s.votes, Tab(0, 0)) && owner in s.votes.producers
    ensures AfterClaim(s, owner, LEVEL) == LEVEL <==> ClaimExact(s.votes, owner)
  {
    hide Equations, Late, Timely, AfterSettling, RowsExact, ClaimRows;
    var v := s.votes;
    assert RowSound(v.producers[owner], v.now) by { RowOfEquations(v, owner, Tab(0, 0)); }
    LateMeans(v.producers[owner], v.now);
    LevelSettles(v);
    RowsExactMeans(ClaimRows(v, owner), v.now, Lag(0, Late(v.producers[owner], v.now)));
  }
}
