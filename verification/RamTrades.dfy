/** What trading in the RAM market comes to, against what its comments promise. */
module RamTrades {
  import opened Basics
  import opened Arithmetic
  import opened Tables
  import opened Ledger
  import opened Exchange
  import opened RamMarket

  // ---------- the release of new RAM ----------

  /** New RAM is released at the set rate for every block exactly when the product fits 32 bits;
      beyond that the contract releases less. */
  lemma ReleaseExact(s: RamState)
    requires s.slot > s.lastIncrease
    ensures NewRam(s) == (s.slot - s.lastIncrease) * s.ramPerBlock
      <==> (s.slot - s.lastIncrease) * s.ramPerBlock < WORD32
    ensures NewRam(s) <= (s.slot - s.lastIncrease) * s.ramPerBlock
  {
    var n := (s.slot - s.lastIncrease) * s.ramPerBlock;
    MulMono(0, s.slot - s.lastIncrease, s.ramPerBlock);
    assert 0 <= n % 0x1_0000_0000 <= n;
  }

  const BUYER: Name := 7
  const OWNER: Name := 8

  /** A small market just after `init`. */
  function Seed(): RamState {
    RamState(0, Market(100_000_000_000_000, 1_000, 1_000_000), 1_000, 0, 0, 0, 0, map[], map[BUYER := 1_000_000])
  }

  /** The same market once a rate was set and blocks have passed. */
  function Later(rate: nat, slots: nat): RamState {
    Seed().(ramPerBlock := rate, slot := slots)
  }

  lemma LaterIsReached(rate: nat, slots: nat)
    requires rate < 0x1_0000
    ensures Initial(Seed()) && Run(Seed(), [SetRate(rate), Advance(slots)]) == Later(rate, slots)
  {
    var actions := [SetRate(rate), Advance(slots)];
    assert actions[..1] == [SetRate(rate)];
    assert [SetRate(rate)][..0] == [];
    assert Run(Seed(), []) == Seed();
    assert Step(Seed(), SetRate(rate)) == Later(rate, 0);
    assert Run(Seed(), [SetRate(rate)]) == Step(Run(Seed(), []), SetRate(rate));
    assert Run(Seed(), actions) == Step(Run(Seed(), actions[..1]), Advance(slots));
  }

  /** A run after which the product wraps to nothing: 32768 bytes a block for 131072 blocks. */
  lemma ReleaseWraps()
    ensures Initial(Seed())
    ensures var s := Run(Seed(), [SetRate(0x8000), Advance(0x2_0000)]);
      && s.ramPerBlock < 0x1_0000 && s.lastIncrease < s.slot < WORD32
      && (s.slot - s.lastIncrease) * s.ramPerBlock == WORD32 && NewRam(s) == 0
  {
    LaterIsReached(0x8000, 0x2_0000);
  }

  // ---------- buying an amount of bytes ----------

  /** The price `buyrambytes` asks for `bytes`, before new RAM is released, less the fee. */
  function Paid(m: Market, bytes: nat): int
    requires MarketOk(m)
  {
    var quant := Convert(m, Ram, bytes, Core).1;
    quant - Fee(quant)
  }

  function Delivered(s: RamState, s1: RamState, receiver: Name): int {
    Quota(s1.quota, receiver) - Quota(s.quota, receiver)
  }

  lemma BuyOutcome(s: RamState, payer: Name, receiver: Name, quant: int, rexOpen: bool)
    requires MarketOk(s.market) && BuyRam(s, payer, receiver, quant, rexOpen).Ok?
    ensures var s1 := BuyRam(s, payer, receiver, quant, rexOpen).value; var m := UpdateRamSupply(s).market;
      && quant - Fee(quant) > 0 && MarketOk(m)
      && Convert(m, Core, quant - Fee(quant), Ram) == (s1.market, Delivered(s, s1, receiver))
      && Delivered(s, s1, receiver) > 0
      && m.quote == s.market.quote && m.base == s.market.base + NewRam(s) && m.supply == s.market.supply
  {
    hide Convert;
  }

  /** `buyrambytes` is documented to buy an exact amount. It delivers at least that amount only if
      the release of new RAM makes up for the fee and for its pricing the bytes as if they were
      sold; and it does if the release makes up for rounding as well. Both conditions can be
      computed before the call. */
  lemma BuyRamBytesDelivers(s: RamState, payer: Name, receiver: Name, bytes: nat, rexOpen: bool)
    requires MarketOk(s.market) && BuyRamBytes(s, payer, receiver, bytes, rexOpen).Ok?
    ensures var got := Delivered(s, BuyRamBytes(s, payer, receiver, bytes, rexOpen).value, receiver);
      var paid, base, supply := Paid(s.market, bytes), s.market.base + NewRam(s), s.market.supply;
      && got > 0 && paid > 0
      && (got >= bytes ==> bytes * (s.market.quote + paid) <= base * paid)
      && ((s.market.quote + paid) * (supply * bytes + 5 * base) <= supply * (base * paid) ==> got >= bytes)
  {
    hide Convert, BuyRam, MarketOk;
    BuyOutcome(s, payer, receiver, Convert(s.market, Ram, bytes, Core).1, rexOpen);
    var paid := Paid(s.market, bytes);
    var m := UpdateRamSupply(s).market;
    ConvertRefinesBancor(m, Core, paid, Ram);
    ConvertNearBancor(m, Core, paid, Ram);
    assert m.supply > 0 && m.base > 0 && m.quote > 0 by { ConnectorProduct(m, Core, Ram); }
    var got := Convert(m, Core, paid, Ram).1;
    DeliveredBounds(m.supply, m.base, m.quote, bytes, paid, got);
  }

  lemma DeliveredBounds(supply: int, base: int, quote: int, bytes: int, paid: int, got: int)
    requires supply > 0 && base > 0 && quote > 0 && paid > 0 && bytes >= 0
    requires got * (quote + paid) <= base * paid
    requires supply * (base * paid) < (quote + paid) * (supply * (got + 1) + 5 * base)
    ensures got >= bytes ==> bytes * (quote + paid) <= base * paid
    ensures (quote + paid) * (supply * bytes + 5 * base) <= supply * (base * paid) ==> got >= bytes
  {
    if got >= bytes {
      MulMono(bytes, got, quote + paid);
    } else {
      MulMono(got + 1, bytes, supply);
      MulMono(supply * (got + 1) + 5 * base, supply * bytes + 5 * base, quote + paid);
    }
  }

  /** Without a release of new RAM in between, it never delivers what it was asked for. */
  lemma BuyRamBytesFallsShort(s: RamState, payer: Name, receiver: Name, bytes: nat, rexOpen: bool)
    requires MarketOk(s.market) && NewRam(s) == 0
    requires BuyRamBytes(s, payer, receiver, bytes, rexOpen).Ok?
    ensures Delivered(s, BuyRamBytes(s, payer, receiver, bytes, rexOpen).value, receiver) < bytes
  {
    hide Convert, BuyRam, MarketOk;
    var m := s.market;
    ConnectorProduct(m, Ram, Core);
    BuyOutcome(s, payer, receiver, Convert(m, Ram, bytes, Core).1, rexOpen);
    ConvertRefinesBancor(m, Ram, bytes, Core);
    ConvertRefinesBancor(UpdateRamSupply(s).market, Core, Paid(m, bytes), Ram);
    QuoteNotEnough(m.base, m.quote, bytes, Convert(m, Ram, bytes, Core).1, Paid(m, bytes),
      Delivered(s, BuyRamBytes(s, payer, receiver, bytes, rexOpen).value, receiver));
  }

  lemma QuoteNotEnough(base: int, quote: int, bytes: int, quant: int, paid: int, got: int)
    requires base > 0 && quote > 0 && bytes >= 0 && 0 <= paid < quant && got > 0
    requires quant * (base + bytes) <= quote * bytes
    requires got * (quote + paid) <= base * paid
    ensures got < bytes
  {
    // got * quote <= base * paid < base * quant <= quote * bytes
    assert got * paid >= 0 by { MulMono(0, paid, got); }
    assert got * quote <= base * paid by { assert got * (quote + paid) == got * quote + got * paid; }
    assert base * paid < base * quant by { MulMono(paid + 1, quant, base); }
    assert quant * bytes >= 0 by { MulMono(0, quant, bytes); }
    assert base * quant <= quote * bytes by { assert quant * (base + bytes) == base * quant + quant * bytes; }
    CancelStrict(got, bytes, quote);
  }

  // ---------- both ways, after a release ----------

  lemma IssuedIs(supply: int, connector: int, amount: int, e: nat)
    requires supply > 0 && 0 <= amount <= connector && connector > 0 && IsIssued(supply, connector, amount, e)
    ensures Issued(supply, connector, amount) == e
  {
    IssuedUnique(supply, connector, amount, e, Issued(supply, connector, amount));
  }

  /** Half of the quote connector for a thousand bytes. */
  lemma SmallPrice()
    ensures Convert(Seed().market, Ram, 1_000, Core).1 == 499_999 && Fee(499_999) == 2_500
  {
    IssuedIs(100_000_000_000_000, 2_000, 1_000, 22_474_487_139_158);
    ConvertOutcome(Seed().market, Ram, 1_000, Core);
  }

  /** What that buys after `bytes` were released. */
  lemma SmallPurchase(m: Market, released: nat, got: nat)
    requires m == Market(100_000_000_000_000, 1_000 + released, 1_000_000)
    requires Released(100_000_000_000_000, 1_000 + released, 15_421_831_615_551) == got
    ensures Convert(m, Core, 497_499, Ram).1 == got
  {
    IssuedIs(100_000_000_000_000, 1_497_499, 497_499, 15_421_831_615_551);
    ConvertOutcome(m, Core, 497_499, Ram);
  }

  lemma SmallTransfers(tokens: map<Name, nat>)
    requires tokens == map[BUYER := 1_000_000]
    ensures Transfer(tokens, BUYER, RAM_ACCOUNT, 497_499).Ok?
    ensures Transfer(Transfer(tokens, BUYER, RAM_ACCOUNT, 497_499).value, BUYER, RAMFEE_ACCOUNT, 2_500).Ok?
  {
  }

  lemma SmallTrade(rate: nat, got: nat)
    requires 0 < rate < 0x1_0000 && got > 0
    requires Released(100_000_000_000_000, 1_000 + rate, 15_421_831_615_551) == got
    ensures Initial(Seed())
    ensures var s := Run(Seed(), [SetRate(rate), Advance(1)]); var r := BuyRamBytes(s, BUYER, OWNER, 1_000, false);
      r.Ok? && Delivered(s, r.value, OWNER) == got
  {
    hide Convert, Transfer, Released;
    LaterIsReached(rate, 1);
    var s := Later(rate, 1);
    SmallPrice();
    SmallPurchase(UpdateRamSupply(s).market, rate, got);
    SmallTransfers(s.tokens);
  }

  /** One block at 60000 bytes: a thousand bytes are asked for, 20265 are delivered. */
  lemma DeliversMore()
    ensures Initial(Seed())
    ensures var s := Run(Seed(), [SetRate(60_000), Advance(1)]); var r := BuyRamBytes(s, BUYER, OWNER, 1_000, false);
      r.Ok? && Delivered(s, r.value, OWNER) == 20_265
  {
    SmallTrade(60_000, 20_265);
  }

  /** One block at one byte: a thousand bytes are asked for, 332 are delivered. */
  lemma DeliversLess()
    ensures Initial(Seed())
    ensures var s := Run(Seed(), [SetRate(1), Advance(1)]); var r := BuyRamBytes(s, BUYER, OWNER, 1_000, false);
      r.Ok? && Delivered(s, r.value, OWNER) == 332
  {
    SmallTrade(1, 332);
  }

  // ---------- buying and selling ----------

  /** What the buyer's balance loses. */
  lemma BuyerPays(s: RamState, a: Name, quant: int, rexOpen: bool)
    requires MarketOk(s.market) && a != RAM_ACCOUNT && a != RAMFEE_ACCOUNT && a != REX_ACCOUNT
    requires BuyRam(s, a, a, quant, rexOpen).Ok?
    ensures Holds(BuyRam(s, a, a, quant, rexOpen).value.tokens, a) == Holds(s.tokens, a) - quant
  {
    hide Convert, Transfer;
    var paid := quant - Fee(quant);
    TransferMoves(s.tokens, a, RAM_ACCOUNT, paid);
    var t1 := Transfer(s.tokens, a, RAM_ACCOUNT, paid).value;
    TransferMoves(t1, a, RAMFEE_ACCOUNT, Fee(quant));
    if rexOpen {
      TransferMoves(Transfer(t1, a, RAMFEE_ACCOUNT, Fee(quant)).value, RAMFEE_ACCOUNT, REX_ACCOUNT, Fee(quant));
    }
  }

  /** What the seller's balance gains: the proceeds less a fee of at least one unit. */
  lemma SellerGets(s: RamState, a: Name, bytes: int, rexOpen: bool)
    requires MarketOk(s.market) && a != RAM_ACCOUNT && a != RAMFEE_ACCOUNT && a != REX_ACCOUNT
    requires SellRam(s, a, bytes, rexOpen).Ok?
    ensures var out := Convert(UpdateRamSupply(s).market, Ram, bytes, Core).1;
      && bytes > 0 && out > 1 && Fee(out) >= 1
      && Holds(SellRam(s, a, bytes, rexOpen).value.tokens, a) == Holds(s.tokens, a) + out - Fee(out)
  {
    hide Convert, Transfer;
    var out := Convert(UpdateRamSupply(s).market, Ram, bytes, Core).1;
    TransferMoves(s.tokens, RAM_ACCOUNT, a, out);
    var t1 := Transfer(s.tokens, RAM_ACCOUNT, a, out).value;
    TransferMoves(t1, a, RAMFEE_ACCOUNT, Fee(out));
    if rexOpen {
      TransferMoves(Transfer(t1, a, RAMFEE_ACCOUNT, Fee(out)).value, RAMFEE_ACCOUNT, REX_ACCOUNT, Fee(out));
    }
  }

  /** Quota bought and later sold again, with whatever new RAM released in between: the trader ends
      with strictly fewer tokens. */
  lemma BuyThenSellLoses(s: RamState, a: Name, quant: int, r1: bool, s1: RamState, later: nat, r2: bool, s2: RamState)
    requires MarketOk(s.market) && a != RAM_ACCOUNT && a != RAMFEE_ACCOUNT && a != REX_ACCOUNT
    requires BuyRam(s, a, a, quant, r1) == Ok(s1)
    requires (ExecMarketOk(s, Buy(a, a, quant, r1)); SellRam(s1.(slot := later), a, Delivered(s, s1, a), r2) == Ok(s2))
    ensures Holds(s2.tokens, a) < Holds(s.tokens, a)
  {
    hide Convert, BuyRam, SellRam, MarketOk, Transfer;
    ExecMarketOk(s, Buy(a, a, quant, r1));
    BuyOutcome(s, a, a, quant, r1);
    BuyerPays(s, a, quant, r1);
    var bytes, paid := Delivered(s, s1, a), quant - Fee(quant);
    var m := UpdateRamSupply(s).market;
    var seller := s1.(slot := later);
    SellerGets(seller, a, bytes, r2);
    var m1 := UpdateRamSupply(seller).market;
    assert MarketOk(m1) by { BuyMarketOk(seller, 0); }
    ConvertRefinesBancor(m, Core, paid, Ram);
    ConvertRefinesBancor(m1, Ram, bytes, Core);
    ConnectorProduct(m, Core, Ram);
    NoGainWithRelease(m.base, m.quote, paid, bytes, NewRam(seller), Convert(m1, Ram, bytes, Core).1);
  }

  lemma NoGainWithRelease(base: int, quote: int, paid: int, bytes: int, released: nat, back: int)
    requires base > 0 && back >= 0 && bytes * (quote + paid) <= base * paid
    requires back * ((base - bytes + released) + bytes) <= (quote + paid) * bytes
    ensures back <= paid
  {
    assert back * base <= paid * base by {
      MulMono(base, base + released, back);
      assert back * ((base - bytes + released) + bytes) == back * (base + released);
    }
    Cancel(back, paid, base);
  }
}
