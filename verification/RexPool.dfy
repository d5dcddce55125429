/** The REX lending pool: share pricing, loan pricing, and the pool's own invariant. */
module RexPool {
  import opened Basics
  import opened Arithmetic
  import opened Tables

  const REX_RATIO: int := 10_000
  const INITIAL_RENT: int := 20_000_0000

  // ---------- the operations ----------

  /** Bancor conversion of `amount` between two connectors, in exact arithmetic. */
  function BancorOutput(conin: int, conout: int, amount: int): int {
    if amount + conin <= 0 then 0 else Max(0, (amount * conout) / (amount + conin))
  }

  function AddLoan(p: Pool, payment: int, rented: int, isNew: bool): Pool {
    var unlent := p.unlent - rented + payment;
    var lent := p.lent + rented;
    p.(rent := p.rent + payment, unlent := unlent, lent := lent, lendable := unlent + lent,
       loanNum := if isNew then p.loanNum + 1 else p.loanNum)
  }

  function RemoveLoan(p: Pool, staked: int): Pool {
    var unlent := p.unlent + staked;
    var lent := p.lent - staked;
    p.(rent := p.rent - BancorOutput(p.unlent, p.rent, staked), unlent := unlent, lent := lent,
       lendable := unlent + lent)
  }

  function AddFee(p: Pool, amount: int): Pool {
    p.(unlent := p.unlent + amount, lendable := p.lendable + amount)
  }

  /** REX issued for `payment`, and the pool afterwards. */
  function Buy(pool: Option<Pool>, payment: int): Result<(Pool, int)> {
    match pool
    case None =>
      var rex := payment * REX_RATIO;
      Ok((Pool(0, payment, INITIAL_RENT, payment, rex, 0, 0), rex))
    case Some(p) =>
      if p.rex <= 0 then
        var rex := payment * REX_RATIO;
        Ok((p.(lendable := payment, lent := 0, unlent := payment, rent := INITIAL_RENT, rex := rex), rex))
      else
        :- Check(p.lendable > 0);
        var lendable := p.lendable + payment;
        var rex := (lendable * p.rex) / p.lendable;
        var unlent := lendable - p.lent;
        :- Check(unlent >= 0);
        Ok((p.(lendable := lendable, rex := rex, unlent := unlent), rex - p.rex))
  }

  /** Core tokens `rex` is worth. Dividing by an empty pool traps. */
  function Value(p: Pool, rex: int): Result<int> {
    if p.rex == 0 then Abort else
    Ok((rex * p.lendable) / p.rex)
  }

  /** What an order may take: a fifth of the lent tokens stays behind in the pool. */
  function Available(p: Pool): int {
    p.unlent - (2 * p.lent) / 10
  }

  /** The pool after `rex` has been redeemed for `proceeds`. */
  function Redeem(p: Pool, rex: int, proceeds: int): Pool {
    var lendable := p.lendable - proceeds;
    p.(rex := p.rex - rex, lendable := lendable, unlent := lendable - p.lent)
  }

  // ---------- what every operation keeps ----------

  ghost predicate PoolOk(p: Pool) {
    && p.unlent >= 0 && p.lent >= 0 && p.rent >= 0 && p.rex >= 0 && p.namebidProceeds >= 0
    && p.lendable == p.unlent + p.lent
    && (p.rex > 0 <==> p.lendable > 0)
    && p.rex <= 10_000 * p.lendable
  }

  /** The share price `lendable / rex` of `q` is not below that of `p`. */
  ghost predicate PriceKept(p: Pool, q: Pool) {
    p.lendable * q.rex <= q.lendable * p.rex
  }

  /** `q` is `a / c` in whole units. */
  ghost predicate Rounded(q: int, a: int, c: int) {
    q * c <= a < q * c + c
  }

  /** What is kept back is a fifth of the lent tokens, in whole units. */
  lemma FifthKeptBack(p: Pool)
    requires p.lent >= 0
    ensures Rounded(p.unlent - Available(p), p.lent, 5)
  {
  }

  /** What shares are worth is their part of the lendable tokens, in whole units. */
  lemma ValueRounds(p: Pool, rex: int)
    requires Value(p, rex).Ok? && p.rex > 0
    ensures Rounded(Value(p, rex).value, rex * p.lendable, p.rex)
  {
    Floor(rex * p.lendable, p.rex);
  }

  lemma BancorBounds(conin: int, conout: int, amount: int)
    requires conin >= 0 && conout >= 0 && amount > 0
    ensures 0 <= BancorOutput(conin, conout, amount) <= conout
    ensures BancorOutput(conin, conout, amount) * (amount + conin) <= amount * conout
    ensures amount * conout < (BancorOutput(conin, conout, amount) + 1) * (amount + conin)
  {
    FloorShare(amount, conout, amount + conin);
    Floor(amount * conout, amount + conin);
  }

  /** The product of the two connectors does not fall, and rises by less than `slack`. */
  ghost predicate ProductKept(conin: int, conout: int, conin1: int, conout1: int, slack: int) {
    conin * conout <= conin1 * conout1 < conin * conout + slack
  }

  /** Putting `amount` into one connector and taking out what the conversion gives. */
  lemma ConversionKeepsProduct(conin: int, conout: int, amount: int)
    requires conin >= 0 && conout >= 0 && amount > 0
    ensures var out := BancorOutput(conin, conout, amount);
      ProductKept(conin, conout, conin + amount, conout - out, conin + amount)
  {
    hide BancorOutput;
    BancorBounds(conin, conout, amount);
    var out := BancorOutput(conin, conout, amount);
    assert (conin + amount) * (conout - out) == conin * conout + amount * conout - out * (amount + conin);
    assert (out + 1) * (amount + conin) == out * (amount + conin) + amount + conin;
  }

  lemma BuyKeepsPool(pool: Option<Pool>, payment: int)
    requires payment > 0
    requires pool.Some? ==> PoolOk(pool.value)
    ensures Buy(pool, payment).Ok?
    ensures var (q, rex) := Buy(pool, payment).value;
      && PoolOk(q) && rex >= 0 && q.rex > 0
      && (pool.None? ==> q.lendable == payment && q.rex == rex && q.lent == 0 && q.namebidProceeds == 0)
      && (pool.None? || pool.value.rex == 0 ==> rex == 10_000 * payment && q.rent == 200_000_000)
      && (pool.Some? && pool.value.rex > 0 ==>
            q.rent == pool.value.rent && Rounded(rex, payment * pool.value.rex, pool.value.lendable))
      && (pool.Some? ==>
            && q.lendable == pool.value.lendable + payment && q.rex == pool.value.rex + rex
            && q.lent == pool.value.lent && q.unlent == pool.value.unlent + payment
            && q.namebidProceeds == pool.value.namebidProceeds && q.loanNum == pool.value.loanNum
            && PriceKept(pool.value, q))
  {
    if pool.Some? && pool.value.rex > 0 {
      var p := pool.value;
      var s1 := p.lendable + payment;
      Floor(s1 * p.rex, p.lendable);
      MulMono(p.lendable, s1, p.rex);
      FloorAtLeast(p.rex, s1 * p.rex, p.lendable);
      var r1 := (s1 * p.rex) / p.lendable;
      assert p.lendable * r1 <= s1 * p.rex;
      assert (r1 - p.rex) * p.lendable == p.lendable * r1 - p.lendable * p.rex;
      assert s1 * p.rex == p.lendable * p.rex + payment * p.rex;
      PriceBoundKept(p.lendable, p.rex, s1, r1);
    }
  }

  /** The initial price of one ten-thousandth is never undercut. */
  lemma PriceBoundKept(s0: int, r0: int, s1: int, r1: int)
    requires s0 > 0 && r0 <= REX_RATIO * s0 && s1 >= 0
    requires s0 * r1 <= s1 * r0
    ensures r1 <= REX_RATIO * s1
  {
    calc {
      r1 * s0;
    <= s1 * r0;
    <= { MulMono(r0, REX_RATIO * s0, s1); }
      s1 * (REX_RATIO * s0);
    == (REX_RATIO * s1) * s0;
    }
    Cancel(r1, REX_RATIO * s1, s0);
  }

  /** Redeeming shares that the pool can pay for: the price does not fall, and the pool is
      emptied of shares and tokens together. */
  lemma RedeemKeepsPool(p: Pool, rex: int)
    requires PoolOk(p) && 0 < rex <= p.rex
    ensures Value(p, rex).Ok? && 0 <= Value(p, rex).value <= p.lendable
    ensures var proceeds := Value(p, rex).value;
      && (rex == p.rex ==> proceeds == p.lendable)
      && (rex < p.rex ==> proceeds < p.lendable)
      && (proceeds <= Available(p) ==>
            var q := Redeem(p, rex, proceeds);
            PoolOk(q) && PriceKept(p, q) && (q.rex == 0 ==> p.lent == 0))
  {
    var v := Value(p, rex).value;
    RedeemedShare(p.lendable, p.rex, rex, v);
    if v <= Available(p) {
      PriceBoundKept(p.lendable, p.rex, p.lendable - v, p.rex - rex);
    }
  }

  lemma RedeemedShare(s: int, r: int, rex: int, v: int)
    requires s > 0 && 0 < rex <= r && v == (rex * s) / r
    ensures 0 <= v <= s
    ensures v == s <==> rex == r
    ensures s * (r - rex) <= (s - v) * r
  {
    FloorShare(rex, s, r);
    Floor(rex * s, r);
    if rex == r {
      FloorAtLeast(s, rex * s, r);
    } else if v == s {
      MulMono(rex + 1, r, s);
    }
    assert s * (r - rex) == s * r - rex * s;
    assert (s - v) * r == s * r - r * v;
  }

  lemma AddLoanKeepsPool(p: Pool, payment: int, isNew: bool)
    requires PoolOk(p) && p.rex > 0 && payment > 0
    ensures var rented := BancorOutput(p.rent, p.unlent, payment);
      var q := AddLoan(p, payment, rented, isNew);
      && 0 <= rented <= p.unlent && PoolOk(q) && PriceKept(p, q)
      && q.lendable == p.lendable + payment && q.lent == p.lent + rented && q.rent == p.rent + payment
      && ProductKept(p.rent, p.unlent, q.rent, p.unlent - rented, q.rent)
      && q.loanNum == p.loanNum + (if isNew then 1 else 0) && q.rex == p.rex && q.namebidProceeds == p.namebidProceeds
  {
    ConversionKeepsProduct(p.rent, p.unlent, payment);
    BancorBounds(p.rent, p.unlent, payment);
    var q := AddLoan(p, payment, BancorOutput(p.rent, p.unlent, payment), isNew);
    MulMono(p.lendable, q.lendable, p.rex);
    PriceBoundKept(p.lendable, p.rex, q.lendable, q.rex);
  }

  lemma RemoveLoanKeepsPool(p: Pool, staked: int)
    requires PoolOk(p) && 0 < staked <= p.lent
    ensures var q := RemoveLoan(p, staked);
      && PoolOk(q) && PriceKept(p, q) && q.lendable == p.lendable && q.lent == p.lent - staked
      && q.unlent == p.unlent + staked && ProductKept(p.unlent, p.rent, q.unlent, q.rent, q.unlent)
      && q.rex == p.rex && q.namebidProceeds == p.namebidProceeds && q.loanNum == p.loanNum
  {
    ConversionKeepsProduct(p.unlent, p.rent, staked);
    BancorBounds(p.unlent, p.rent, staked);
  }

  lemma AddFeeKeepsPool(p: Pool, amount: int)
    requires PoolOk(p) && p.rex > 0 && amount >= 0
    ensures PoolOk(AddFee(p, amount)) && PriceKept(p, AddFee(p, amount))
  {
    MulMono(p.lendable, p.lendable + amount, p.rex);
    PriceBoundKept(p.lendable, p.rex, p.lendable + amount, p.rex);
  }

  lemma PriceTransitive(p: Pool, q: Pool, r: Pool)
    requires PoolOk(p) && PoolOk(q) && PoolOk(r)
    requires PriceKept(p, q) && PriceKept(q, r)
    requires q.rex > 0 || r.rex == 0
    ensures PriceKept(p, r)
  {
    if q.rex > 0 {
      FractionTransitive(p.rex, p.lendable, q.rex, q.lendable, r.rex, r.lendable);
    }
  }

  // ---------- buying and selling ----------

  /** The value of bought shares, at once or at any later pool whose price has not fallen:
      never more than the payment at once, and at least the payment less one unit when a share
      cost at most one unit. */
  lemma BoughtSharesKeepTheirValue(pool: Option<Pool>, payment: int, later: Pool)
    requires payment > 0
    requires pool.Some? ==> PoolOk(pool.value)
    requires var (q, rex) := BuyOutcome(pool, payment);
      PoolOk(later) && PriceKept(q, later) && rex <= later.rex && later.rex > 0
    ensures var (q, rex) := BuyOutcome(pool, payment);
      && (rex * q.lendable) / q.rex <= payment
      && ((pool.Some? ==> pool.value.lendable <= pool.value.rex) ==>
            payment - 1 <= (rex * q.lendable) / q.rex && payment - 1 <= (rex * later.lendable) / later.rex)
  {
    hide PoolOk, Buy;
    var (q, rex) := BuyOutcome(pool, payment);
    if pool.Some? && pool.value.rex > 0 {
      BuyAtPrice(pool.value, payment);
      PurchaseWorth(pool.value.lendable, pool.value.rex, payment, rex, later.lendable, later.rex);
    } else {
      BuyAtStart(pool, payment);
      FirstPurchaseWorth(payment, rex, later.lendable, later.rex);
    }
  }

  ghost function BuyOutcome(pool: Option<Pool>, payment: int): (Pool, int)
    requires payment > 0
    requires pool.Some? ==> PoolOk(pool.value)
  {
    BuyKeepsPool(pool, payment);
    Buy(pool, payment).value
  }

  /** A purchase from a pool with shares gets the floor of what the price gives. */
  lemma BuyAtPrice(p: Pool, payment: int)
    requires payment > 0 && PoolOk(p) && p.rex > 0
    ensures var (q, rex) := BuyOutcome(Some(p), payment);
      && p.lendable > 0 && rex >= 0 && q.lendable == p.lendable + payment && q.rex == p.rex + rex
      && p.lendable * (p.rex + rex) <= (p.lendable + payment) * p.rex < p.lendable * (p.rex + rex) + p.lendable
  {
    BuyKeepsPool(Some(p), payment);
    Floor((p.lendable + payment) * p.rex, p.lendable);
  }

  lemma BuyAtStart(pool: Option<Pool>, payment: int)
    requires payment > 0 && (pool.Some? ==> PoolOk(pool.value) && pool.value.rex <= 0)
    ensures var (q, rex) := BuyOutcome(pool, payment); q.lendable == payment && q.rex == rex == REX_RATIO * payment
  {
  }

  lemma FirstPurchaseWorth(payment: int, rex: int, s2: int, r2: int)
    requires payment > 0 && rex > 0 && r2 > 0 && payment * r2 <= s2 * rex
    ensures (rex * payment) / rex <= payment && payment - 1 <= (rex * payment) / rex && payment - 1 <= (rex * s2) / r2
  {
    assert rex * payment < (payment + 1) * rex;
    FloorAtMost(payment, rex * payment, rex);
    FloorAtLeast(payment, rex * payment, rex);
    LaterWorth(payment, rex, payment, rex, s2, r2);
  }

  /** The same in numbers: `s0` and `r0` before the purchase, `s2` and `r2` later. */
  lemma PurchaseWorth(s0: int, r0: int, payment: int, rex: int, s2: int, r2: int)
    requires s0 > 0 && r0 > 0 && payment > 0 && rex >= 0 && r2 > 0
    requires s0 * (r0 + rex) <= (s0 + payment) * r0 < s0 * (r0 + rex) + s0
    requires (s0 + payment) * r2 <= s2 * (r0 + rex)
    ensures (rex * (s0 + payment)) / (r0 + rex) <= payment
    ensures s0 <= r0 ==> payment - 1 <= (rex * (s0 + payment)) / (r0 + rex) && payment - 1 <= (rex * s2) / r2
  {
    PurchaseWorthAtMost(s0, r0, payment, rex);
    if s0 <= r0 {
      PurchaseWorthAtLeast(s0, r0, payment, rex);
      FloorAtLeast(payment - 1, rex * (s0 + payment), r0 + rex);
      LaterWorth(payment - 1, rex, s0 + payment, r0 + rex, s2, r2);
    }
  }

  lemma PurchaseWorthAtMost(s0: int, r0: int, payment: int, rex: int)
    requires s0 > 0 && r0 > 0 && payment > 0 && rex >= 0
    requires s0 * (r0 + rex) <= (s0 + payment) * r0
    ensures (rex * (s0 + payment)) / (r0 + rex) <= payment
  {
    assert rex * s0 <= payment * r0;
    assert rex * (s0 + payment) == rex * s0 + rex * payment;
    assert payment * (r0 + rex) == payment * r0 + payment * rex;
    FloorAtMost(payment, rex * (s0 + payment), r0 + rex);
  }

  lemma PurchaseWorthAtLeast(s0: int, r0: int, payment: int, rex: int)
    requires 0 < s0 <= r0 && payment > 0 && rex >= 0
    requires (s0 + payment) * r0 < s0 * (r0 + rex) + s0
    ensures (payment - 1) * (r0 + rex) <= rex * (s0 + payment)
  {
    assert payment * r0 < rex * s0 + s0;
    assert payment * (r0 + rex) == payment * r0 + payment * rex;
    assert (payment - 1) * (r0 + rex) == payment * (r0 + rex) - (r0 + rex);
    assert rex * (s0 + payment) == rex * s0 + rex * payment;
  }

  /** A value reached at one price is reached at any price that is not lower. */
  lemma LaterWorth(value: int, rex: int, s0: int, r0: int, s1: int, r1: int)
    requires r0 > 0 && r1 > 0 && rex >= 0
    requires value * r0 <= rex * s0 && s0 * r1 <= s1 * r0
    ensures value <= (rex * s1) / r1
  {
    calc {
      (value * r1) * r0;
    == (value * r0) * r1;
    <= { MulMono(value * r0, rex * s0, r1); }
      (rex * s0) * r1;
    == rex * (s0 * r1);
    <= { MulMono(s0 * r1, s1 * r0, rex); }
      rex * (s1 * r0);
    == (rex * s1) * r0;
    }
    Cancel(value * r1, rex * s1, r0);
    FloorAtLeast(value, rex * s1, r1);
  }
}
