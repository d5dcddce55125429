/** How the steps on a REX balance keep the four-day lock-up of one account. */
module LockUp {
  import opened Tables
  import opened Maturity
  import opened RexInvariant

  lemma Appended(log: seq<Event>, e: Event, owner: Name, t: int)
    ensures ReceivedBy(log + [e], owner, t)
         == ReceivedBy(log, owner, t) + (if e.Bought? && e.owner == owner && e.at <= t then e.rex else 0)
    ensures SoldBy(log + [e], owner, t)
         == SoldBy(log, owner, t) + (if e.Sold? && e.owner == owner && e.at <= t then e.rex else 0)
  {
    assert (log + [e])[..|log|] == log;
  }

  lemma {:induction false} HistoryMonotone(log: seq<Event>, owner: Name, t: int, u: int, second: nat)
    requires LogInv(log, second) && t <= u
    ensures 0 <= ReceivedBy(log, owner, t) <= ReceivedBy(log, owner, u)
    ensures 0 <= SoldBy(log, owner, t) <= SoldBy(log, owner, u)
  {
    if log != [] {
      HistoryMonotone(log[..|log| - 1], owner, t, u, second);
    }
  }

  /** Nothing happened after `second` yet. */
  lemma {:induction false} HistoryComplete(log: seq<Event>, owner: Name, t: int, second: nat)
    requires LogInv(log, second) && second <= t && second <= END_OF_DAYS
    ensures ReceivedBy(log, owner, t) == ReceivedBy(log, owner, END_OF_DAYS)
    ensures SoldBy(log, owner, t) == SoldBy(log, owner, END_OF_DAYS)
  {
    if log != [] {
      HistoryComplete(log[..|log| - 1], owner, t, second);
    }
  }

  lemma {:induction false} DueMonotone(q: seq<Bucket>, x: nat, y: nat)
    requires forall i | 0 <= i < |q| :: q[i].amount >= 0
    requires x <= y
    ensures 0 <= Due(q, x) <= Due(q, y)
  {
    if q != [] {
      DueMonotone(q[..|q| - 1], x, y);
    }
  }

  /** A well-formed balance exposes at least the matured and at most all of its REX. */
  lemma ExposureBounds(rb: RexBalance, second: nat, x: nat)
    requires RowOk(rb, second) && x <= END_OF_DAYS
    ensures rb.matured <= Exposure(rb, x) <= rb.rex
  {
    var q := rb.maturities;
    forall i | 0 <= i < |q|
      ensures q[i].amount >= 0
    {
      assert i < |Body(q)| ==> q[i] == Body(q)[i];
    }
    DueMonotone(q, x, END_OF_DAYS);
  }

  /** Time passing keeps a balance well-formed. */
  lemma RowOkLater(rb: RexBalance, second: nat, later: nat)
    requires RowOk(rb, second) && second <= later
    ensures RowOk(rb, later)
  {
    DayStartMonotone(second, later);
  }

  lemma DayStartMonotone(second: nat, later: nat)
    requires second <= later
    ensures DayStart(second) <= DayStart(later)
  {
  }

  /** Rearranging a balance so that nothing becomes sellable before a full maturity period. */
  lemma Rearranged(log: seq<Event>, owner: Name, rb: RexBalance, rb1: RexBalance, second: nat)
    requires LogInv(log, second) && ClockOk(second) && AccountLocked(log, owner, rb, second)
    requires RowOk(rb1, second) && rb1.rex == rb.rex
    requires forall x | second <= x < RexMaturity(second) :: Exposure(rb1, x) <= Exposure(rb, x)
    ensures AccountLocked(log, owner, rb1, second)
  {
    hide Due, RowOk, ReceivedBy, SoldBy;
    forall x | second <= x < END_OF_DAYS
      ensures Exposure(rb1, x) + SoldBy(log, owner, END_OF_DAYS) <= ReceivedBy(log, owner, SellableSince(x))
    {
      if RexMaturity(second) <= x {
        PastMaturity(second, x);
        HistoryComplete(log, owner, SellableSince(x), second);
        ExposureBounds(rb1, second, x);
      }
    }
  }

  /** When what is bought now matures, today has been over for four days. */
  lemma PastMaturity(second: nat, x: nat)
    requires RexMaturity(second) <= x
    ensures second <= SellableSince(x)
  {
  }

  /** Buying. */
  lemma Received(log: seq<Event>, owner: Name, rb: RexBalance, rb1: RexBalance, second: nat, amount: int)
    requires LogInv(log, second) && ClockOk(second) && AccountLocked(log, owner, rb, second) && amount >= 0
    requires RowOk(rb1, second) && rb1.rex == rb.rex + amount
    requires forall x | second <= x < RexMaturity(second) :: Exposure(rb1, x) <= Exposure(rb, x)
    ensures LogInv(log + [Bought(owner, amount, second)], second)
    ensures AccountLocked(log + [Bought(owner, amount, second)], owner, rb1, second)
  {
    hide Due, RowOk, ReceivedBy, SoldBy, RexMaturity;
    var log1 := log + [Bought(owner, amount, second)];
    Appended(log, Bought(owner, amount, second), owner, END_OF_DAYS);
    forall x | second <= x < END_OF_DAYS
      ensures Exposure(rb1, x) + SoldBy(log1, owner, END_OF_DAYS) <= ReceivedBy(log1, owner, SellableSince(x))
    {
      Appended(log, Bought(owner, amount, second), owner, SellableSince(x));
      if RexMaturity(second) <= x {
        PastMaturity(second, x);
        HistoryComplete(log1, owner, SellableSince(x), second);
        ExposureBounds(rb1, second, x);
      }
    }
    forall t | 0 <= t < END_OF_DAYS
      ensures SoldBy(log1, owner, t) <= ReceivedBy(log1, owner, SellableSince(t))
    {
      Appended(log, Bought(owner, amount, second), owner, t);
      Appended(log, Bought(owner, amount, second), owner, SellableSince(t));
    }
  }

  /** Selling matured REX. */
  lemma SoldMatured(log: seq<Event>, owner: Name, rb: RexBalance, rb1: RexBalance, second: nat, amount: int)
    requires LogInv(log, second) && ClockOk(second) && AccountLocked(log, owner, rb, second)
    requires RowOk(rb, second) && 0 <= amount <= rb.matured
    requires rb1.rex == rb.rex - amount && rb1.matured == rb.matured - amount && rb1.maturities == rb.maturities
    ensures LogInv(log + [Sold(owner, amount, second)], second)
    ensures AccountLocked(log + [Sold(owner, amount, second)], owner, rb1, second)
  {
    hide Due, RowOk, ReceivedBy, SoldBy;
    var e := Sold(owner, amount, second);
    var log1 := log + [e];
    Appended(log, e, owner, END_OF_DAYS);
    forall x | second <= x < END_OF_DAYS
      ensures Exposure(rb1, x) + SoldBy(log1, owner, END_OF_DAYS) <= ReceivedBy(log1, owner, SellableSince(x))
    {
      Appended(log, e, owner, SellableSince(x));
      assert Exposure(rb1, x) == Exposure(rb, x) - amount;
    }
    forall t | 0 <= t < END_OF_DAYS
      ensures SoldBy(log1, owner, t) <= ReceivedBy(log1, owner, SellableSince(t))
    {
      Appended(log, e, owner, t);
      Appended(log, e, owner, SellableSince(t));
      if second <= t {
        ExposureBounds(rb, second, t);
        HistoryMonotone(log, owner, t, END_OF_DAYS, second);
        HistoryComplete(log, owner, t, second);
      }
    }
  }

  /** What happens to one account does not touch the lock-up of another. */
  lemma OthersLocked(log: seq<Event>, e: Event, other: Name, rb: RexBalance, second: nat)
    requires AccountLocked(log, other, rb, second) && e.owner != other
    ensures AccountLocked(log + [e], other, rb, second)
  {
    hide Due, ReceivedBy, SoldBy;
    forall t: int
      ensures SoldBy(log + [e], other, t) == SoldBy(log, other, t)
      ensures ReceivedBy(log + [e], other, t) == ReceivedBy(log, other, t)
    {
      Appended(log, e, other, t);
    }
  }
}
