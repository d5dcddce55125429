/** The maturity queue of one REX balance: daily buckets and the savings bucket. */
module Maturity {
  import opened Basics
  import opened Tables

  // ---------- the operations ----------

  /** End of the fourth full day after `second`'s day. */
  function RexMaturity(second: nat): nat {
    DayStart(second) + 5 * SECONDS_PER_DAY
  }

  /** Moves every bucket that is due from the front of the queue to the matured amount. */
  function Process(rb: RexBalance, second: nat): RexBalance
    decreases |rb.maturities|
  {
    if rb.maturities != [] && rb.maturities[0].time <= second then
      Process(rb.(matured := rb.matured + rb.maturities[0].amount, maturities := rb.maturities[1..]), second)
    else rb
  }

  predicate HasSavings(q: seq<Bucket>) {
    q != [] && q[|q| - 1].time == END_OF_DAYS
  }

  function Savings(q: seq<Bucket>): int {
    if HasSavings(q) then q[|q| - 1].amount else 0
  }

  /** The queue without its savings bucket. */
  function Body(q: seq<Bucket>): seq<Bucket> {
    if HasSavings(q) then q[..|q| - 1] else q
  }

  /** Adds `amount` to the last bucket when that matures at `time`, else appends a bucket. */
  function AddAtBack(q: seq<Bucket>, time: nat, amount: int): seq<Bucket> {
    if q != [] && q[|q| - 1].time == time then
      q[..|q| - 1] + [Bucket(time, q[|q| - 1].amount + amount)]
    else q + [Bucket(time, amount)]
  }

  function PutSavings(q: seq<Bucket>, amount: int): seq<Bucket> {
    if amount == 0 then q else AddAtBack(q, END_OF_DAYS, amount)
  }

  /** Sets savings aside, matures what is due, puts `amount` into the newest bucket, and
      puts `savings` back. */
  function Refill(rb: RexBalance, second: nat, amount: int, savings: int): RexBalance {
    var rb1 := Process(rb.(maturities := Body(rb.maturities)), second);
    rb1.(maturities := PutSavings(AddAtBack(rb1.maturities, RexMaturity(second), amount), savings))
  }

  /** Newly bought REX enters a balance. */
  function Receive(rb: RexBalance, second: nat, amount: int): RexBalance {
    Refill(rb.(rex := rb.rex + amount), second, amount, Savings(rb.maturities))
  }

  /** Takes `amount` out of the buckets, latest first, as far as they reach; also
      returns what is still missing. */
  function TakeFromBack(q: seq<Bucket>, amount: int): (seq<Bucket>, int) {
    if q == [] || amount <= 0 then (q, amount)
    else
      var last := q[|q| - 1];
      var taken := Min(amount, last.amount);
      if last.amount - taken == 0 then TakeFromBack(q[..|q| - 1], amount - taken)
      else (q[..|q| - 1] + [Bucket(last.time, last.amount - taken)], amount - taken)
  }

  function MoveToSavings(rb: RexBalance, second: nat, amount: int, inOrder: int): Result<RexBalance> {
    var savings := Savings(rb.maturities);
    :- Check(amount + inOrder + savings <= rb.rex);
    var rb1 := Process(rb.(maturities := Body(rb.maturities)), second);
    var (q, missing) := TakeFromBack(rb1.maturities, amount);
    var matured := if missing > 0 then rb1.matured - missing else rb1.matured;
    :- Check(missing > 0 ==> inOrder <= matured);
    Ok(rb1.(matured := matured, maturities := PutSavings(q, savings + amount)))
  }

  function MoveFromSavings(rb: RexBalance, second: nat, amount: int): Result<RexBalance> {
    var savings := Savings(rb.maturities);
    :- Check(amount <= savings);
    Ok(Refill(rb, second, amount, savings - amount))
  }

  /** All REX that is neither in savings nor in an open sell order starts maturing anew. */
  function Consolidate(rb: RexBalance, second: nat, inOrder: int): RexBalance {
    var total := rb.matured - inOrder + Amounts(Body(rb.maturities));
    var q := if total > 0 then [Bucket(RexMaturity(second), total)] else [];
    rb.(matured := inOrder, maturities := PutSavings(q, Savings(rb.maturities)))
  }

  function Amounts(q: seq<Bucket>): int {
    if q == [] then 0 else q[0].amount + Amounts(q[1..])
  }

  // ---------- what the queue holds ----------

  /** REX in buckets that mature no later than second `x`. */
  function Due(q: seq<Bucket>, x: nat): int {
    if q == [] then 0
    else Due(q[..|q| - 1], x) + (if q[|q| - 1].time <= x then q[|q| - 1].amount else 0)
  }

  /** REX of a balance that its owner could have sold by second `x` without touching savings. */
  function Exposure(rb: RexBalance, x: nat): int {
    rb.matured + Due(rb.maturities, x)
  }

  predicate Midnight(second: nat) {
    second % SECONDS_PER_DAY == 0
  }

  /** Daily buckets: non-negative, at distinct midnights in increasing order, the last one at
      most five days after midnight `day` and at most four days after the first. */
  ghost predicate Daily(q: seq<Bucket>, day: nat) {
    && (forall i | 0 <= i < |q| ::
          q[i].amount >= 0 && Midnight(q[i].time) && q[i].time <= day + 5 * SECONDS_PER_DAY)
    && (forall i, j | 0 <= i < j < |q| :: q[i].time < q[j].time <= q[i].time + 4 * SECONDS_PER_DAY)
  }

  /** A well-formed REX balance: everything it holds is matured, in a daily bucket or in savings. */
  ghost predicate RowOk(rb: RexBalance, second: nat) {
    && rb.voteStake >= 0 && rb.matured >= 0
    && rb.rex == Exposure(rb, END_OF_DAYS)
    && Daily(Body(rb.maturities), DayStart(second))
    && Savings(rb.maturities) >= 0
  }

  /** Seconds the clock can show: five days later still fits a 32-bit time point. */
  ghost predicate ClockOk(second: nat) {
    second + 5 * SECONDS_PER_DAY < END_OF_DAYS
  }

  // ---------- lemmas ----------

  lemma {:induction false} DueFront(q: seq<Bucket>, x: nat)
    requires q != []
    ensures Due(q, x) == (if q[0].time <= x then q[0].amount else 0) + Due(q[1..], x)
  {
    if |q| > 1 {
      DueFront(q[..|q| - 1], x);
      assert q[..|q| - 1][1..] == q[1..][..|q| - 2];
    }
  }

  lemma {:induction false} AmountsAreDue(q: seq<Bucket>)
    requires forall i | 0 <= i < |q| :: q[i].time <= END_OF_DAYS
    ensures Amounts(q) == Due(q, END_OF_DAYS)
  {
    if q != [] {
      DueFront(q, END_OF_DAYS);
      AmountsAreDue(q[1..]);
    }
  }

  lemma {:induction false} DueNonNegative(q: seq<Bucket>, x: nat)
    requires forall i | 0 <= i < |q| :: q[i].amount >= 0
    ensures Due(q, x) >= 0
  {
    if q != [] {
      DueNonNegative(q[..|q| - 1], x);
    }
  }

  lemma DueBody(q: seq<Bucket>, x: nat)
    ensures Due(q, x) == Due(Body(q), x) + (if END_OF_DAYS <= x then Savings(q) else 0)
  {
  }

  lemma DueAddAtBack(q: seq<Bucket>, time: nat, amount: int, x: nat)
    ensures Due(AddAtBack(q, time, amount), x) == Due(q, x) + (if time <= x then amount else 0)
  {
    var r := AddAtBack(q, time, amount);
    if q != [] && q[|q| - 1].time == time {
      assert r[..|r| - 1] == q[..|q| - 1];
    } else {
      assert r[..|r| - 1] == q;
    }
  }

  /** `Process` leaves a daily queue of buckets of the future. */
  lemma {:induction false} ProcessShape(rb: RexBalance, second: nat, day: nat)
    requires Daily(rb.maturities, day)
    ensures var r := Process(rb, second);
      && r.rex == rb.rex && r.voteStake == rb.voteStake && r.matured >= rb.matured
      && Daily(r.maturities, day)
      && (forall i | 0 <= i < |r.maturities| :: r.maturities[i].time > second)
    decreases |rb.maturities|
  {
    var q := rb.maturities;
    forall i | 0 <= i < |q| ensures q != [] && (i > 0 ==> q[0].time < q[i].time) {}
    if q != [] && q[0].time <= second {
      ProcessShape(rb.(matured := rb.matured + q[0].amount, maturities := q[1..]), second, day);
    }
  }

  /** `Process` moves REX from due buckets to the matured amount, and nothing else. */
  lemma {:induction false} ProcessMovesDue(rb: RexBalance, second: nat, x: nat)
    requires second <= x
    ensures Exposure(Process(rb, second), x) == Exposure(rb, x)
    decreases |rb.maturities|
  {
    var q := rb.maturities;
    if q != [] && q[0].time <= second {
      DueFront(q, x);
      ProcessMovesDue(rb.(matured := rb.matured + q[0].amount, maturities := q[1..]), second, x);
    }
  }

  /** Midnights are at least a day apart. */
  lemma MidnightAfter(time: nat, second: nat)
    requires Midnight(time) && time > second
    ensures time >= DayStart(second) + SECONDS_PER_DAY
    ensures Midnight(DayStart(second)) && DayStart(second) <= second < DayStart(second) + SECONDS_PER_DAY
  {
  }

  lemma EndOfDaysIsNoMidnight(q: seq<Bucket>, day: nat)
    requires Daily(q, day)
    ensures !HasSavings(q) && Body(q) == q && Savings(q) == 0
  {
  }

  lemma PutSavingsShape(q: seq<Bucket>, day: nat, amount: int)
    requires Daily(q, day)
    ensures Body(PutSavings(q, amount)) == q && Savings(PutSavings(q, amount)) == amount
  {
    EndOfDaysIsNoMidnight(q, day);
  }

  /** Buckets that have not matured and the bucket of today's purchases form a daily queue. */
  lemma AddAtBackDaily(q: seq<Bucket>, second: nat, amount: int)
    requires Daily(q, DayStart(second)) && amount >= 0
    requires forall i | 0 <= i < |q| :: q[i].time > second
    ensures Daily(AddAtBack(q, RexMaturity(second), amount), DayStart(second))
  {
    hide Midnight, DayStart;
    forall i | 0 <= i < |q|
      ensures DayStart(second) + SECONDS_PER_DAY <= q[i].time
    {
      MidnightAfter(q[i].time, second);
    }
    DayStartIsMidnight(second);
    FiveDaysOn(DayStart(second));
    AddAtBackInWindow(q, DayStart(second), amount);
  }

  lemma DayStartIsMidnight(second: nat)
    ensures Midnight(DayStart(second))
  {
  }

  lemma FiveDaysOn(day: nat)
    requires Midnight(day)
    ensures Midnight(day + SECONDS_PER_DAY) && Midnight(day + 5 * SECONDS_PER_DAY)
  {
  }

  lemma AddAtBackInWindow(q: seq<Bucket>, day: nat, amount: int)
    requires Daily(q, day) && amount >= 0
    requires forall i | 0 <= i < |q| :: day + SECONDS_PER_DAY <= q[i].time
    requires Midnight(day + 5 * SECONDS_PER_DAY)
    ensures Daily(AddAtBack(q, day + 5 * SECONDS_PER_DAY, amount), day)
  {
    hide Midnight;
    var r := AddAtBack(q, day + 5 * SECONDS_PER_DAY, amount);
    if q != [] && q[|q| - 1].time == day + 5 * SECONDS_PER_DAY {
      assert forall i | 0 <= i < |q| :: r[i].time == q[i].time;
    } else {
      forall i | 0 <= i < |q|
        ensures r[i] == q[i] && q[i].time < day + 5 * SECONDS_PER_DAY
      {
        assert i < |q| - 1 ==> q[i].time < q[|q| - 1].time;
      }
    }
  }

  lemma RefillShape(rb: RexBalance, second: nat, amount: int, savings: int)
    requires Daily(Body(rb.maturities), DayStart(second)) && amount >= 0
    ensures var r := Refill(rb, second, amount, savings);
      && r.rex == rb.rex && r.voteStake == rb.voteStake && r.matured >= rb.matured
      && Daily(Body(r.maturities), DayStart(second)) && Savings(r.maturities) == savings
  {
    var rb0 := rb.(maturities := Body(rb.maturities));
    ProcessShape(rb0, second, DayStart(second));
    var rb1 := Process(rb0, second);
    AddAtBackDaily(rb1.maturities, second, amount);
    PutSavingsShape(AddAtBack(rb1.maturities, RexMaturity(second), amount), DayStart(second), savings);
  }

  /** Refilling moves due REX to the matured amount, adds `amount` to a bucket that is not due
      before four full days have passed, and replaces the savings. */
  lemma RefillExposure(rb: RexBalance, second: nat, amount: int, savings: int, x: nat)
    requires second <= x
    requires !HasSavings(AddAtBack(Process(rb.(maturities := Body(rb.maturities)), second).maturities,
      RexMaturity(second), amount))
    ensures Exposure(Refill(rb, second, amount, savings), x)
         == Exposure(rb, x) + (if RexMaturity(second) <= x then amount else 0)
            + (if END_OF_DAYS <= x then savings - Savings(rb.maturities) else 0)
  {
    var rb0 := rb.(maturities := Body(rb.maturities));
    var rb1 := Process(rb0, second);
    var q := AddAtBack(rb1.maturities, RexMaturity(second), amount);
    DueBody(rb.maturities, x);
    ProcessMovesDue(rb0, second, x);
    DueAddAtBack(rb1.maturities, RexMaturity(second), amount, x);
    DueAddAtBack(q, END_OF_DAYS, savings, x);
  }

  lemma {:induction false} TakeFromBackShape(q: seq<Bucket>, amount: int, day: nat)
    requires Daily(q, day) && amount >= 0
    ensures var (r, missing) := TakeFromBack(q, amount);
      && 0 <= missing <= amount && Daily(r, day) && (missing > 0 ==> r == [])
  {
    hide Midnight;
    if q != [] && amount > 0 {
      var last := q[|q| - 1];
      var taken := Min(amount, last.amount);
      if last.amount == taken {
        TakeFromBackShape(q[..|q| - 1], amount - taken, day);
      }
    }
  }

  /** Taking REX out of buckets lowers what is due by any time, in all by what was taken. */
  lemma {:induction false} TakeFromBackDue(q: seq<Bucket>, amount: int, x: nat)
    requires forall i | 0 <= i < |q| :: q[i].amount >= 0
    requires amount >= 0
    ensures var (r, missing) := TakeFromBack(q, amount);
      && Due(r, x) <= Due(q, x)
      && ((forall i | 0 <= i < |q| :: q[i].time <= x) ==> Due(r, x) == Due(q, x) - (amount - missing))
  {
    if q != [] && amount > 0 {
      var last := q[|q| - 1];
      var taken := Min(amount, last.amount);
      if last.amount == taken {
        TakeFromBackDue(q[..|q| - 1], amount - taken, x);
      } else {
        var r := q[..|q| - 1] + [Bucket(last.time, last.amount - taken)];
        assert r[..|r| - 1] == q[..|q| - 1];
      }
    }
  }

  // ---------- main results ----------

  /** `process_rex_maturities` on a well-formed balance. */
  lemma ProcessKeepsRow(rb: RexBalance, second: nat)
    requires RowOk(rb, second) && ClockOk(second)
    ensures var r := Process(rb, second);
      && RowOk(r, second) && r.rex == rb.rex && r.voteStake == rb.voteStake && r.matured >= rb.matured
      && (forall i | 0 <= i < |r.maturities| :: r.maturities[i].time > second)
  {
    hide Due, Process;
    ProcessAroundSavings(rb, second);
    ProcessShape(rb.(maturities := Body(rb.maturities)), second, DayStart(second));
    ProcessMovesDue(rb, second, END_OF_DAYS);
    var q := Process(rb, second).maturities;
    forall i | 0 <= i < |q|
      ensures q[i].time > second
    {
      assert i < |Body(q)| ==> q[i] == Body(q)[i];
    }
  }

  /** Processing never reaches the savings bucket. */
  lemma {:induction false} ProcessAroundSavings(rb: RexBalance, second: nat)
    requires second < END_OF_DAYS
    ensures var r := Process(rb, second); var b := Process(rb.(maturities := Body(rb.maturities)), second);
      && Body(r.maturities) == b.maturities && Savings(r.maturities) == Savings(rb.maturities)
      && r == b.(maturities := r.maturities)
    decreases |rb.maturities|
  {
    var q := rb.maturities;
    if HasSavings(q) && q[0].time <= second {
      assert Body(q[1..]) == Body(q)[1..];
      ProcessAroundSavings(rb.(matured := rb.matured + q[0].amount, maturities := q[1..]), second);
    } else if !HasSavings(q) {
      ProcessCreatesNoSavings(rb, second);
    }
  }

  lemma {:induction false} ProcessCreatesNoSavings(rb: RexBalance, second: nat)
    requires !HasSavings(rb.maturities)
    ensures !HasSavings(Process(rb, second).maturities)
    decreases |rb.maturities|
  {
    var q := rb.maturities;
    if q != [] && q[0].time <= second {
      ProcessCreatesNoSavings(rb.(matured := rb.matured + q[0].amount, maturities := q[1..]), second);
    }
  }

  /** Refilling a well-formed balance, seen from second `x`. */
  lemma RefillKeepsRow(rb: RexBalance, second: nat, amount: int, savings: int, x: nat)
    requires Daily(Body(rb.maturities), DayStart(second)) && amount >= 0
    requires second <= x
    ensures Exposure(Refill(rb, second, amount, savings), x)
         == Exposure(rb, x) + (if RexMaturity(second) <= x then amount else 0)
            + (if END_OF_DAYS <= x then savings - Savings(rb.maturities) else 0)
  {
    var rb0 := rb.(maturities := Body(rb.maturities));
    ProcessShape(rb0, second, DayStart(second));
    AddAtBackDaily(Process(rb0, second).maturities, second, amount);
    EndOfDaysIsNoMidnight(AddAtBack(Process(rb0, second).maturities, RexMaturity(second), amount), DayStart(second));
    RefillExposure(rb, second, amount, savings, x);
  }

  /** Bought REX keeps the balance well-formed, and is not due before four full days have passed. */
  lemma ReceiveKeepsRow(rb: RexBalance, second: nat, amount: int, x: nat)
    requires RowOk(rb, second) && ClockOk(second) && amount >= 0 && second <= x < END_OF_DAYS
    ensures var r := Receive(rb, second, amount);
      && RowOk(r, second) && r.rex == rb.rex + amount && r.voteStake == rb.voteStake && r.matured >= rb.matured
      && Exposure(r, x) == Exposure(rb, x) + (if RexMaturity(second) <= x then amount else 0)
  {
    hide Due, Refill, Process, AddAtBack, PutSavings;
    var rb1 := rb.(rex := rb.rex + amount);
    RefillShape(rb1, second, amount, Savings(rb.maturities));
    RefillKeepsRow(rb1, second, amount, Savings(rb.maturities), x);
    RefillKeepsRow(rb1, second, amount, Savings(rb.maturities), END_OF_DAYS);
  }

  /** `mvfrsavings`: the moved REX starts a full maturity period. */
  lemma MoveFromSavingsKeepsRow(rb: RexBalance, second: nat, amount: int, x: nat)
    requires RowOk(rb, second) && ClockOk(second) && amount > 0 && second <= x < END_OF_DAYS
    requires MoveFromSavings(rb, second, amount).Ok?
    ensures var r := MoveFromSavings(rb, second, amount).value;
      && RowOk(r, second) && r.rex == rb.rex && r.voteStake == rb.voteStake && r.matured >= rb.matured
      && Savings(r.maturities) == Savings(rb.maturities) - amount
      && Exposure(r, x) == Exposure(rb, x) + (if RexMaturity(second) <= x then amount else 0)
  {
    hide Due, Refill, Process, AddAtBack, PutSavings;
    RefillShape(rb, second, amount, Savings(rb.maturities) - amount);
    RefillKeepsRow(rb, second, amount, Savings(rb.maturities) - amount, x);
    RefillKeepsRow(rb, second, amount, Savings(rb.maturities) - amount, END_OF_DAYS);
  }

  /** `mvtosavings` succeeds exactly when the balance covers the amount, what is in savings and
      what is in the open sell order; its internal "logic error" check never fails. */
  lemma MoveToSavingsKeepsRow(rb: RexBalance, second: nat, amount: int, inOrder: int, x: nat)
    requires RowOk(rb, second) && ClockOk(second) && amount > 0 && 0 <= inOrder <= rb.matured
    requires second <= x < END_OF_DAYS
    ensures MoveToSavings(rb, second, amount, inOrder).Ok? <==> amount + inOrder + Savings(rb.maturities) <= rb.rex
    ensures MoveToSavings(rb, second, amount, inOrder).Ok? ==>
      var r := MoveToSavings(rb, second, amount, inOrder).value;
      && RowOk(r, second) && r.rex == rb.rex && r.voteStake == rb.voteStake && inOrder <= r.matured
      && Savings(r.maturities) == Savings(rb.maturities) + amount
      && Exposure(r, x) <= Exposure(rb, x)
  {
    var savings := Savings(rb.maturities);
    var rb0 := rb.(maturities := Body(rb.maturities));
    var rb1 := Process(rb0, second);
    var (q, missing) := TakeFromBack(rb1.maturities, amount);
    ProcessShape(rb0, second, DayStart(second));
    TakeFromBackShape(rb1.maturities, amount, DayStart(second));
    EndOfDaysIsNoMidnight(q, DayStart(second));
    PutSavingsShape(q, DayStart(second), savings + amount);
    MoveToSavingsExposure(rb, second, amount, x);
    MoveToSavingsExposure(rb, second, amount, END_OF_DAYS);
  }

  lemma MoveToSavingsExposure(rb: RexBalance, second: nat, amount: int, x: nat)
    requires Daily(Body(rb.maturities), DayStart(second)) && ClockOk(second) && amount > 0 && second <= x
    ensures var savings := Savings(rb.maturities);
      var rb1 := Process(rb.(maturities := Body(rb.maturities)), second);
      var (q, missing) := TakeFromBack(rb1.maturities, amount);
      && rb1.matured + Due(q, x) <= Exposure(rb, x) - (if END_OF_DAYS <= x then savings else 0)
      && (END_OF_DAYS <= x ==> rb1.matured + Due(q, x) == Exposure(rb, x) - savings - (amount - missing))
      && (!HasSavings(q) ==>
          Due(PutSavings(q, savings + amount), x) == Due(q, x) + (if END_OF_DAYS <= x then savings + amount else 0))
      && (missing > 0 ==> Due(q, x) == 0)
  {
    var rb0 := rb.(maturities := Body(rb.maturities));
    var rb1 := Process(rb0, second);
    ProcessShape(rb0, second, DayStart(second));
    DueBody(rb.maturities, x);
    ProcessMovesDue(rb0, second, x);
    TakeFromBackShape(rb1.maturities, amount, DayStart(second));
    TakeFromBackDue(rb1.maturities, amount, x);
    var (q, missing) := TakeFromBack(rb1.maturities, amount);
    DueAddAtBack(q, END_OF_DAYS, Savings(rb.maturities) + amount, x);
  }

  /** `consolidate` leaves only the REX of an open order sellable before a new full maturity
      period has passed. */
  lemma ConsolidateKeepsRow(rb: RexBalance, second: nat, inOrder: int, x: nat)
    requires RowOk(rb, second) && ClockOk(second) && 0 <= inOrder <= rb.matured
    requires second <= x < END_OF_DAYS
    ensures var r := Consolidate(rb, second, inOrder);
      && RowOk(r, second) && r.rex == rb.rex && r.voteStake == rb.voteStake && r.matured == inOrder
      && Savings(r.maturities) == Savings(rb.maturities)
      && Exposure(r, x) == if x < RexMaturity(second) then inOrder else rb.rex - Savings(rb.maturities)
  {
    hide Due, Amounts, PutSavings;
    var q0 := Body(rb.maturities);
    AmountsAreDue(q0);
    DueBody(rb.maturities, END_OF_DAYS);
    DueNonNegative(q0, END_OF_DAYS);
    var total := rb.matured - inOrder + Amounts(q0);
    OneBucketDaily(second, total);
    var q := if total > 0 then [Bucket(RexMaturity(second), total)] else [];
    PutSavingsShape(q, DayStart(second), Savings(rb.maturities));
    OneBucketDue(second, total, Savings(rb.maturities), x);
    OneBucketDue(second, total, Savings(rb.maturities), END_OF_DAYS);
  }

  lemma OneBucketDaily(second: nat, total: int)
    ensures total >= 0 ==> Daily([Bucket(RexMaturity(second), total)], DayStart(second))
    ensures Daily([], DayStart(second))
  {
    DayStartIsMidnight(second);
    FiveDaysOn(DayStart(second));
  }

  lemma OneBucketDue(second: nat, total: int, savings: int, x: nat)
    requires ClockOk(second) && total >= 0
    ensures var q := if total > 0 then [Bucket(RexMaturity(second), total)] else [];
      Due(PutSavings(q, savings), x)
        == (if RexMaturity(second) <= x then total else 0) + (if END_OF_DAYS <= x then savings else 0)
  {
    var q := if total > 0 then [Bucket(RexMaturity(second), total)] else [];
    assert [Bucket(RexMaturity(second), total)][..0] == [];
    DueAddAtBack(q, END_OF_DAYS, savings, x);
  }

  /** There are never more than five daily buckets, plus one for savings. */
  lemma AtMostSixBuckets(rb: RexBalance, second: nat)
    requires RowOk(rb, second)
    ensures |Body(rb.maturities)| <= 5 && |rb.maturities| <= 6
  {
    var q := Body(rb.maturities);
    if q != [] {
      DaysApart(q, DayStart(second), |q| - 1);
    }
  }

  lemma {:induction false} DaysApart(q: seq<Bucket>, day: nat, i: nat)
    requires Daily(q, day) && i < |q|
    ensures q[i].time >= q[0].time + i * SECONDS_PER_DAY
  {
    if i > 0 {
      DaysApart(q, day, i - 1);
      assert q[i - 1].time < q[i].time;
      MidnightAfter(q[i].time, q[i - 1].time);
    }
  }
}
