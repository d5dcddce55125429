/** What trades in the RAM market and changes of its size do to tokens, quotas and connectors, in
    numbers. */
module RamEffects {
  import opened Basics
  import opened Tables
  import opened Ledger
  import opened Exchange
  import opened RamMarket

  /** Half a percent, in whole units, rounded up. */
  ghost predicate HalfPercent(fee: int, amount: int) {
    200 * (fee - 1) < amount <= 200 * fee
  }

  /** A price `out` for `amount`, out of the connector `o` into the connector `i`: at most the
      proportional share, and below it by no more than one unit and five parts in `supply`. */
  ghost predicate Priced(supply: int, i: int, o: int, amount: int, out: int) {
    out * (i + amount) <= o * amount && supply * (o * amount) < (i + amount) * (supply * (out + 1) + 5 * o)
  }

  /** The payer's `amount` went to the market, but for the fee. */
  ghost predicate Collected(tokens: map<Name, nat>, tokens1: map<Name, nat>, payer: Name, amount: int, fee: int,
      feeTo: Name) {
    forall n: Name ::
      Holds(tokens1, n) == Holds(tokens, n) - (if n == payer then amount else 0)
        + (if n == RAM_ACCOUNT then amount - fee else 0) + (if n == feeTo then fee else 0)
  }

  /** Only the quota of `owner` changed. */
  ghost predicate QuotaMoved(quota: map<Name, nat>, quota1: map<Name, nat>, owner: Name, bytes: int) {
    forall n: Name :: Quota(quota1, n) == Quota(quota, n) + (if n == owner then bytes else 0)
  }

  /** What is released before a trade: the rate for every block since the last release, in 32 bits. */
  function ReleasedBytes(s: RamState): int {
    if s.slot > s.lastIncrease then ((s.slot - s.lastIncrease) * s.ramPerBlock) % 4_294_967_296 else 0
  }

  function LastRelease(s: RamState): nat {
    if s.slot > s.lastIncrease then s.slot else s.lastIncrease
  }

  lemma ReleaseMoves(s: RamState)
    ensures var extra := ReleasedBytes(s);
      UpdateRamSupply(s) == s.(
        maxRam := s.maxRam + extra, market := s.market.(base := s.market.base + extra), lastIncrease := LastRelease(s))
  {
  }

  /** `buyram`: the payer is charged the amount, half a percent of it as a fee that goes to the pool of
      the resource exchange once that is open; for the rest the receiver gets bytes at the price of the
      market, into which new RAM was released first. */
  lemma BuyMoves(s: RamState, payer: Name, receiver: Name, quant: int, rexOpen: bool) returns (fee: int, bytes: int)
    requires MarketOk(s.market) && Exec(s, Buy(payer, receiver, quant, rexOpen)).Ok?
    ensures var s1 := Exec(s, Buy(payer, receiver, quant, rexOpen)).value; var extra := ReleasedBytes(s);
      && HalfPercent(fee, quant) && 0 < fee < quant <= Holds(s.tokens, payer) && bytes > 0
      && Collected(s.tokens, s1.tokens, payer, quant, fee, if rexOpen then REX_ACCOUNT else RAMFEE_ACCOUNT)
      && QuotaMoved(s.quota, s1.quota, receiver, bytes)
      && Priced(s.market.supply, s.market.quote, s.market.base + extra, quant - fee, bytes)
      && s1 == s.(
           tokens := s1.tokens, quota := s1.quota, lastIncrease := LastRelease(s), maxRam := s.maxRam + extra,
           reserved := s.reserved + bytes, ramStake := s.ramStake + quant - fee,
           market := s.market.(base := s.market.base + extra - bytes, quote := s.market.quote + quant - fee))
  {
    hide Convert, Transfer, UpdateRamSupply, Priced, Collected;
    ReleaseMoves(s);
    var s1 := UpdateRamSupply(s);
    fee := Fee(quant);
    assert HalfPercent(fee, quant);
    BuyMarketOk(s, quant);
    ConvertRefinesBancor(s1.market, Core, quant - fee, Ram);
    bytes := Convert(s1.market, Core, quant - fee, Ram).1;
    PricedBy(s1.market, Core, quant - fee, Ram);
    FeePaid(s.tokens, payer, quant, fee, rexOpen);
  }

  lemma PricedBy(m: Market, from: Symbol, amount: int, to: Symbol)
    requires MarketOk(m) && amount >= 0 && from != RamCore && to != RamCore && from != to
    ensures Priced(m.supply, Connector(m, from), Connector(m, to), amount, Convert(m, from, amount, to).1)
  {
    hide Convert;
    ConvertRefinesBancor(m, from, amount, to);
    ConvertNearBancor(m, from, amount, to);
  }

  lemma FeePaid(tokens: map<Name, nat>, payer: Name, quant: int, fee: int, rexOpen: bool)
    requires Transfer(tokens, payer, RAM_ACCOUNT, quant - fee).Ok?
    requires Transfer(Transfer(tokens, payer, RAM_ACCOUNT, quant - fee).value, payer, RAMFEE_ACCOUNT, fee).Ok?
    ensures var t1 := Transfer(tokens, payer, RAM_ACCOUNT, quant - fee).value;
      var t2 := Transfer(t1, payer, RAMFEE_ACCOUNT, fee).value;
      && 0 < fee < quant <= Holds(tokens, payer)
      && Collected(tokens, t2, payer, quant, fee, RAMFEE_ACCOUNT)
      && (Transfer(t2, RAMFEE_ACCOUNT, REX_ACCOUNT, fee).Ok? ==>
            Collected(tokens, Transfer(t2, RAMFEE_ACCOUNT, REX_ACCOUNT, fee).value, payer, quant, fee, REX_ACCOUNT))
  {
    var t1 := Transfer(tokens, payer, RAM_ACCOUNT, quant - fee).value;
    TransferMoves(tokens, payer, RAM_ACCOUNT, quant - fee);
    TransferMoves(t1, payer, RAMFEE_ACCOUNT, fee);
    var t2 := Transfer(t1, payer, RAMFEE_ACCOUNT, fee).value;
    PaysAnother(tokens, payer, RAM_ACCOUNT, quant - fee);
    PaysAnother(t1, payer, RAMFEE_ACCOUNT, fee);
    if Transfer(t2, RAMFEE_ACCOUNT, REX_ACCOUNT, fee).Ok? {
      TransferMoves(t2, RAMFEE_ACCOUNT, REX_ACCOUNT, fee);
    }
  }

  lemma PaysAnother(tokens: map<Name, nat>, from: Name, to: Name, quantity: int)
    requires Transfer(tokens, from, to, quantity).Ok?
    ensures from != to && 0 < quantity <= Holds(tokens, from)
  {
  }

  /** `buyrambytes` buys for what the bytes would sell for before the release. */
  lemma BuyBytesMoves(s: RamState, payer: Name, receiver: Name, bytes: nat, rexOpen: bool) returns (quant: int)
    requires MarketOk(s.market)
    ensures Priced(s.market.supply, s.market.base, s.market.quote, bytes, quant)
    ensures Exec(s, BuyBytes(payer, receiver, bytes, rexOpen)) == Exec(s, Buy(payer, receiver, quant, rexOpen))
  {
    hide Convert, BuyRam;
    quant := Convert(s.market, Ram, bytes, Core).1;
    PricedBy(s.market, Ram, bytes, Core);
  }

  /** `sellram`: the seller's quota falls by the bytes, and it is paid their price less half a percent of
      it, which goes the same way as a buyer's fee. */
  lemma SellMoves(s: RamState, account: Name, bytes: int, rexOpen: bool) returns (fee: int, out: int)
    requires MarketOk(s.market) && Exec(s, Sell(account, bytes, rexOpen)).Ok?
    ensures var s1 := Exec(s, Sell(account, bytes, rexOpen)).value; var extra := ReleasedBytes(s);
      && 0 < bytes <= Quota(s.quota, account) && out > 1 && HalfPercent(fee, out)
      && SellerPaid(s.tokens, s1.tokens, account, out, fee, if rexOpen then REX_ACCOUNT else RAMFEE_ACCOUNT)
      && QuotaMoved(s.quota, s1.quota, account, -bytes)
      && Priced(s.market.supply, s.market.base + extra, s.market.quote, bytes, out)
      && s1 == s.(
           tokens := s1.tokens, quota := s1.quota, lastIncrease := LastRelease(s), maxRam := s.maxRam + extra,
           reserved := s.reserved - bytes, ramStake := s.ramStake - out,
           market := s.market.(base := s.market.base + extra + bytes, quote := s.market.quote - out))
  {
    hide Convert, Transfer, UpdateRamSupply, Priced, SellerPaid;
    ReleaseMoves(s);
    var s1 := UpdateRamSupply(s);
    BuyMarketOk(s, 0);
    ConvertRefinesBancor(s1.market, Ram, bytes, Core);
    out := Convert(s1.market, Ram, bytes, Core).1;
    PricedBy(s1.market, Ram, bytes, Core);
    fee := Fee(out);
    SaleFeePaid(s.tokens, account, out, fee, rexOpen);
  }

  ghost predicate SellerPaid(tokens: map<Name, nat>, tokens1: map<Name, nat>, seller: Name, out: int, fee: int,
      feeTo: Name) {
    forall n: Name ::
      Holds(tokens1, n) == Holds(tokens, n) + (if n == seller then out - fee else 0)
        - (if n == RAM_ACCOUNT then out else 0) + (if n == feeTo then fee else 0)
  }

  lemma SaleFeePaid(tokens: map<Name, nat>, seller: Name, out: int, fee: int, rexOpen: bool)
    requires Transfer(tokens, RAM_ACCOUNT, seller, out).Ok?
    requires Transfer(Transfer(tokens, RAM_ACCOUNT, seller, out).value, seller, RAMFEE_ACCOUNT, fee).Ok?
    ensures var t2 := Transfer(Transfer(tokens, RAM_ACCOUNT, seller, out).value, seller, RAMFEE_ACCOUNT, fee).value;
      && SellerPaid(tokens, t2, seller, out, fee, RAMFEE_ACCOUNT)
      && (Transfer(t2, RAMFEE_ACCOUNT, REX_ACCOUNT, fee).Ok? ==>
            SellerPaid(tokens, Transfer(t2, RAMFEE_ACCOUNT, REX_ACCOUNT, fee).value, seller, out, fee, REX_ACCOUNT))
  {
    var t1 := Transfer(tokens, RAM_ACCOUNT, seller, out).value;
    TransferMoves(tokens, RAM_ACCOUNT, seller, out);
    TransferMoves(t1, seller, RAMFEE_ACCOUNT, fee);
    var t2 := Transfer(t1, seller, RAMFEE_ACCOUNT, fee).value;
    PaysAnother(tokens, RAM_ACCOUNT, seller, out);
    PaysAnother(t1, seller, RAMFEE_ACCOUNT, fee);
    if Transfer(t2, RAMFEE_ACCOUNT, REX_ACCOUNT, fee).Ok? {
      TransferMoves(t2, RAMFEE_ACCOUNT, REX_ACCOUNT, fee);
    }
  }

  /** `setram` grows the market to any size above the old one and the reserved bytes and below 2^50;
      `setramrate` takes any 16-bit rate, and releases what the old rate had earned. */
  lemma SizeMoves(s: RamState, maxRam: int, rate: nat)
    requires MarketOk(s.market)
    ensures Exec(s, SetSize(maxRam)) ==
      if s.maxRam < maxRam < 1_125_899_906_842_624 && s.reserved < maxRam
      then Ok(s.(maxRam := maxRam, market := s.market.(base := s.market.base + maxRam - s.maxRam)))
      else Abort
    ensures Exec(s, SetRate(rate)) ==
      if rate < 65_536
      then Ok(s.(
        ramPerBlock := rate, maxRam := s.maxRam + ReleasedBytes(s), lastIncrease := LastRelease(s),
        market := s.market.(base := s.market.base + ReleasedBytes(s))))
      else Abort
  {
    ReleaseMoves(s);
  }
}
