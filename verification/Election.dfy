/** Electing block producers: the scan of the index by votes, and the size of the schedule. */
module Election {
  import opened Basics
  import opened Tables
  import opened Voting
  import opened VotingInvariant

  const SEATS: nat := 21

  /** The index key: active producers by descending votes, deactivated ones by ascending votes. */
  function ByVotes(producers: map<Name, Producer>): Name -> int {
    (n: Name) =>
      if n !in producers then 0
      else if producers[n].isActive then -producers[n].votes
      else producers[n].votes
  }

  /** What the loop condition asks of a row. */
  predicate Eligible(producers: map<Name, Producer>, n: Name) {
    n in producers && producers[n].isActive && producers[n].votes > 0
  }

  ghost function Eligibles(producers: map<Name, Producer>): set<Name> {
    set n | n in producers && Eligible(producers, n)
  }

  /** The scan: it takes rows in index order and stops at the first one that is not eligible. */
  function Scan(producers: map<Name, Producer>, top: seq<Name>, rest: set<Name>): seq<Name>
    decreases |rest|
  {
    if rest != {} && |top| < SEATS && Eligible(producers, Least(rest, ByVotes(producers))) then
      var n := Least(rest, ByVotes(producers));
      Scan(producers, top + [n], rest - {n})
    else top
  }

  function Elected(producers: map<Name, Producer>): seq<Name> {
    Scan(producers, [], producers.Keys)
  }

  // ---------- what the scan finds ----------

  predicate Distinct(names: seq<Name>) {
    forall i, j | 0 <= i < j < |names| :: names[i] != names[j]
  }

  function Elements(names: seq<Name>): set<Name> {
    set n | n in names
  }

  lemma {:induction false} DistinctCount(names: seq<Name>)
    requires Distinct(names)
    ensures |Elements(names)| == |names|
  {
    if names != [] {
      var rest, last := names[..|names| - 1], names[|names| - 1];
      assert names == rest + [last];
      DistinctCount(rest);
      assert Elements(names) == Elements(rest) + {last};
      assert last !in rest;
    }
  }

  /** `top` is an initial piece of the index, and all of it is eligible. */
  ghost predicate Leading(producers: map<Name, Producer>, top: seq<Name>) {
    && Distinct(top) && |top| <= SEATS
    && (forall n | n in top :: Eligible(producers, n))
    && (forall n, m | n in top && m in producers && m !in top :: Before(ByVotes(producers), n, m))
    && (forall i, j | 0 <= i < j < |top| :: Before(ByVotes(producers), top[i], top[j]))
  }

  /** The scan went as far as it could. */
  ghost predicate Stopped(producers: map<Name, Producer>, top: seq<Name>) {
    |top| == SEATS || producers.Keys == Elements(top)
    || exists b :: IsLeast(producers.Keys - Elements(top), ByVotes(producers), b) && !Eligible(producers, b)
  }

  lemma {:induction false} ScanLeads(producers: map<Name, Producer>, top: seq<Name>, rest: set<Name>)
    requires Leading(producers, top) && rest == producers.Keys - Elements(top)
    ensures Leading(producers, Scan(producers, top, rest)) && Stopped(producers, Scan(producers, top, rest))
    decreases |rest|
  {
    if rest == {} {
      forall n | n in producers
        ensures n in Elements(top)
      {
        assert n !in rest;
      }
      assert producers.Keys == Elements(top);
    } else if |top| < SEATS {
      var n := Least(rest, ByVotes(producers));
      if Eligible(producers, n) {
        assert n !in top;
        assert rest - {n} == producers.Keys - Elements(top + [n]);
        NextLeads(producers, top, n);
        ScanLeads(producers, top + [n], rest - {n});
      } else {
        assert IsLeast(producers.Keys - Elements(top), ByVotes(producers), n);
      }
    }
  }

  lemma NextLeads(producers: map<Name, Producer>, top: seq<Name>, n: Name)
    requires Leading(producers, top) && |top| < SEATS && Eligible(producers, n)
    requires IsLeast(producers.Keys - Elements(top), ByVotes(producers), n)
    ensures Leading(producers, top + [n])
  {
    hide ByVotes;
    var next := top + [n];
    forall a, m | a in next && m in producers && m !in next
      ensures Before(ByVotes(producers), a, m)
    {
      assert m !in top && m != n;
      assert m in producers.Keys - Elements(top);
    }
  }

  /** The rows a scan should find: the first `k` eligible ones, in order of the index. */
  ghost predicate Best(producers: map<Name, Producer>, names: seq<Name>, k: nat) {
    && |names| == k && Distinct(names) && (forall n | n in names :: Eligible(producers, n))
    && (forall n, m | n in names && Eligible(producers, m) && m !in names :: Better(producers, n, m))
    && (forall i, j | 0 <= i < j < k :: Better(producers, names[i], names[j]))
  }

  /** More votes, or as many and the smaller name. */
  predicate Better(producers: map<Name, Producer>, a: Name, b: Name) {
    && a in producers && b in producers
    && (producers[a].votes > producers[b].votes || (producers[a].votes == producers[b].votes && a < b))
  }

  ghost function Seats(producers: map<Name, Producer>): nat {
    if |Eligibles(producers)| < SEATS then |Eligibles(producers)| else SEATS
  }

  /** The eligible rows that come before `b` in the index. */
  ghost function Ahead(producers: map<Name, Producer>, b: Name): set<Name> {
    set n | n in producers && Eligible(producers, n) && Before(ByVotes(producers), n, b)
  }

  /** No row that stops the scan comes before the seats are filled. */
  ghost predicate Unobstructed(producers: map<Name, Producer>) {
    forall b | b in producers && !Eligible(producers, b) :: |Ahead(producers, b)| >= Seats(producers)
  }

  /** The scan elects the best eligible producers, as many as there are seats for, exactly when no
      other row stops it too early. */
  lemma ScanIsBest(producers: map<Name, Producer>)
    ensures Best(producers, Elected(producers), Seats(producers)) <==> Unobstructed(producers)
  {
    hide ByVotes, Scan;
    var top := Elected(producers);
    assert Elements([]) == {};
    assert producers.Keys - Elements([]) == producers.Keys;
    ScanLeads(producers, [], producers.Keys);
    DistinctCount(top);
    LeadingIsBest(producers, top);
    assert Elements(top) <= Eligibles(producers);
    SubsetCount(Elements(top), Eligibles(producers));
    if |top| == Seats(producers) {
      forall b | b in producers && !Eligible(producers, b)
        ensures |Ahead(producers, b)| >= Seats(producers)
      {
        assert b !in top;
        assert Elements(top) <= Ahead(producers, b);
        SubsetCount(Elements(top), Ahead(producers, b));
      }
    } else {
      if producers.Keys == Elements(top) {
        AllElected(producers, top);
        assert false;
      }
      var b :| IsLeast(producers.Keys - Elements(top), ByVotes(producers), b) && !Eligible(producers, b);
      StopperAhead(producers, top, b);
    }
  }

  lemma AllElected(producers: map<Name, Producer>, top: seq<Name>)
    requires Leading(producers, top) && producers.Keys == Elements(top)
    ensures Elements(top) == Eligibles(producers)
  {
    hide ByVotes;
  }

  lemma StopperAhead(producers: map<Name, Producer>, top: seq<Name>, b: Name)
    requires Leading(producers, top) && !Eligible(producers, b)
    requires IsLeast(producers.Keys - Elements(top), ByVotes(producers), b)
    ensures |Ahead(producers, b)| == |top|
  {
    hide ByVotes;
    DistinctCount(top);
    forall n | n in producers && Eligible(producers, n) && n !in top
      ensures n !in Ahead(producers, b)
    {
      assert n in producers.Keys - Elements(top) && n != b;
    }
    assert Ahead(producers, b) == Elements(top);
  }

  lemma LeadingIsBest(producers: map<Name, Producer>, top: seq<Name>)
    requires Leading(producers, top)
    ensures Best(producers, top, |top|)
  {
  }

  lemma SubsetCount(a: set<Name>, b: set<Name>)
    requires a <= b
    ensures |a| <= |b|
  {
    assert b == a + (b - a);
    assert |b| == |a| + |b - a|;
  }

  /** Without negative votes nothing obstructs the scan. */
  lemma NoNegativeVotes(producers: map<Name, Producer>)
    requires forall n | n in producers :: producers[n].votes >= 0
    ensures Unobstructed(producers) && Best(producers, Elected(producers), Seats(producers))
  {
    forall b | b in producers && !Eligible(producers, b)
      ensures |Ahead(producers, b)| >= Seats(producers)
    {
      assert Ahead(producers, b) == Eligibles(producers);
    }
    ScanIsBest(producers);
  }

  /** Whenever the vote-pay accounting is exact, so is the election: nobody's votes are negative. */
  lemma ElectionExact(s: VoteState)
    requires VotePay(s, Tab(0, 0))
    ensures Best(s.producers, Elected(s.producers), Seats(s.producers))
  {
    hide SumOf;
    NoNegativeVotes(s.producers);
  }

  /** Without negative votes, on the rows alone: the elected are active and have votes, they are listed
      by votes, nobody who could be elected has more votes than one who was, and they are 21, or all who
      could be elected. */
  lemma ElectedMeans(producers: map<Name, Producer>)
    requires forall n | n in producers :: producers[n].votes >= 0
    ensures var top := Elected(producers);
      && (forall n | n in top :: n in producers && producers[n].isActive && producers[n].votes > 0)
      && (forall i, j | 0 <= i < j < |top| ::
            top[i] != top[j] && producers[top[i]].votes >= producers[top[j]].votes)
      && (forall n, m | n in top && m in producers && producers[m].isActive && m !in top ::
            producers[m].votes <= producers[n].votes)
      && (|top| == 21 || (|top| < 21 && forall n | n in producers && producers[n].isActive && producers[n].votes > 0 ::
            n in top))
  {
    hide Elected;
    NoNegativeVotes(producers);
    var top := Elected(producers);
    DistinctCount(top);
    if |top| < 21 {
      assert Elements(top) <= Eligibles(producers);
      SameCount(Elements(top), Eligibles(producers));
      forall n | n in producers && Eligible(producers, n)
        ensures n in top
      {
        assert n in Eligibles(producers);
      }
    }
  }

  lemma SameCount(a: set<Name>, b: set<Name>)
    requires a <= b && |a| == |b|
    ensures a == b
  {
    assert b == a + (b - a);
    assert |b| == |a| + |b - a|;
  }

  // ---------- the schedule ----------

  datatype Schedule = Schedule(lastUpdate: nat, lastSize: nat, proposed: Option<seq<Name>>)

  /** The names in ascending order. */
  function Sorted(names: set<Name>): seq<Name>
    decreases |names|
  {
    if names == {} then []
    else
      var n := Least(names, m => 0);
      [n] + Sorted(names - {n})
  }

  lemma {:induction false} SortedMeans(names: set<Name>)
    ensures Ascending(Sorted(names)) && (forall n :: n in Sorted(names) <==> n in names)
    decreases |names|
  {
    if names != {} {
      var n := Least(names, m => 0);
      var rest := Sorted(names - {n});
      SortedMeans(names - {n});
      assert Sorted(names) == [n] + rest;
      forall i | 1 <= i < |[n] + rest|
        ensures ([n] + rest)[i - 1] < ([n] + rest)[i]
      {
        assert rest[i - 1] in rest;
      }
    }
  }

  /** `accepted` is the host's answer to the proposal. */
  function Update(sc: Schedule, producers: map<Name, Producer>, slot: nat, accepted: bool): Schedule {
    var top := Elected(producers);
    if |top| < sc.lastSize || !accepted then sc.(lastUpdate := slot)
    else Schedule(slot, |top|, Some(Sorted(Elements(top))))
  }

  /** A proposed schedule that was accepted: its size, and its members. */
  ghost predicate ScheduleOk(sc: Schedule) {
    sc.lastSize <= SEATS && (sc.proposed.Some? ==> Ascending(sc.proposed.value) && |sc.proposed.value| == sc.lastSize)
  }

  /** A vote count of the chain at some moment, and the host's answer. */
  datatype Round = Round(producers: map<Name, Producer>, slot: nat, accepted: bool)

  function Rounds(sc: Schedule, rounds: seq<Round>): Schedule {
    if rounds == [] then sc
    else
      var r := rounds[|rounds| - 1];
      Update(Rounds(sc, rounds[..|rounds| - 1]), r.producers, r.slot, r.accepted)
  }

  lemma SortedCount(names: set<Name>)
    ensures |Sorted(names)| == |names| && Ascending(Sorted(names)) && Elements(Sorted(names)) == names
  {
    hide Sorted;
    SortedMeans(names);
    assert Elements(Sorted(names)) == names;
    AscendingIsDistinct(Sorted(names));
    DistinctCount(Sorted(names));
  }

  lemma AscendingIsDistinct(names: seq<Name>)
    requires Ascending(names)
    ensures Distinct(names)
  {
    forall i, j | 0 <= i < j < |names|
      ensures names[i] != names[j]
    {
      AscendingSteps(names, i, j);
    }
  }

  /** A round proposes the elected, in order of their names, unless they are fewer than last time or the
      host refuses; then the schedule stays. */
  lemma UpdateKeeps(sc: Schedule, producers: map<Name, Producer>, slot: nat, accepted: bool)
    requires ScheduleOk(sc)
    ensures var sc1 := Update(sc, producers, slot, accepted); var top := Elected(producers);
      && ScheduleOk(sc1) && sc.lastSize <= sc1.lastSize && sc1.lastUpdate == slot
      && (if accepted && |top| >= sc.lastSize
          then sc1.lastSize == |top| && sc1.proposed.Some? && Elements(sc1.proposed.value) == Elements(top)
          else sc1.lastSize == sc.lastSize && sc1.proposed == sc.proposed)
  {
    hide Scan, Sorted;
    var top := Elected(producers);
    assert Elements([]) == {};
    assert producers.Keys - Elements([]) == producers.Keys;
    ScanLeads(producers, [], producers.Keys);
    DistinctCount(top);
    SortedCount(Elements(top));
  }

  /** The accepted schedule never shrinks, however votes change between elections. */
  lemma {:induction false} ScheduleNeverShrinks(sc: Schedule, rounds: seq<Round>)
    requires ScheduleOk(sc)
    ensures ScheduleOk(Rounds(sc, rounds)) && sc.lastSize <= Rounds(sc, rounds).lastSize
  {
    hide Update;
    if rounds != [] {
      var r := rounds[|rounds| - 1];
      ScheduleNeverShrinks(sc, rounds[..|rounds| - 1]);
      UpdateKeeps(Rounds(sc, rounds[..|rounds| - 1]), r.producers, r.slot, r.accepted);
    }
  }

  // ---------- the contract's own form ----------

  class Scheduler {
    var producers: map<Name, Producer>
    var lastUpdate: nat
    var lastSize: nat
    var proposed: Option<seq<Name>>

    function Value(): Schedule
      reads this
    {
      Schedule(lastUpdate, lastSize, proposed)
    }

    constructor (producers: map<Name, Producer>, sc: Schedule)
      ensures Value() == sc && this.producers == producers
    {
      this.producers, lastUpdate, lastSize, proposed := producers, sc.lastUpdate, sc.lastSize, sc.proposed;
    }

    /** The index scan. */
    static method TopProducers(producers: map<Name, Producer>) returns (top: seq<Name>)
      ensures top == Elected(producers)
    {
      top := [];
      var rest := producers.Keys;
      while rest != {} && |top| < SEATS
        invariant Scan(producers, top, rest) == Elected(producers)
        decreases |rest|
      {
        var n := Least(rest, ByVotes(producers));
        if n !in producers || producers[n].votes <= 0 || !producers[n].isActive {
          return;
        }
        top := top + [n];
        rest := rest - {n};
      }
    }

    /** `update_elected_producers`. */
    method UpdateElectedProducers(slot: nat, accepted: bool)
      modifies this`lastUpdate, this`lastSize, this`proposed
      ensures Value() == Update(old(Value()), producers, slot, accepted)
      ensures old(ScheduleOk(Value())) ==> ScheduleOk(Value()) && old(lastSize) <= lastSize
    {
      hide Scan, Sorted, ScheduleOk;
      lastUpdate := slot;
      var top := TopProducers(producers);
      if old(ScheduleOk(Value())) {
        UpdateKeeps(old(Value()), producers, slot, accepted);
      }
      if |top| < lastSize {
        return;
      }
      if accepted {
        lastSize := |top|;
        proposed := Some(Sorted(Elements(top)));
      }
    }
  }
}
