/** The RAM market: buying and selling quota, and releasing new RAM into the market. */
module RamMarket {
  import opened Basics
  import opened Arithmetic
  import opened Tables
  import opened Ledger
  import opened Exchange

  /** `slot` is the current block slot; `quota` the RAM bytes users own. */
  datatype RamState = RamState(
    slot: nat, market: Market, maxRam: int, reserved: int, ramStake: int,
    ramPerBlock: nat, lastIncrease: nat, quota: map<Name, nat>, tokens: map<Name, nat>)

  const MAX_RAM_LIMIT: int := 1024 * 1024 * 1024 * 1024 * 1024
  const WORD32: nat := 0x1_0000_0000

  function Fee(amount: int): int {
    (amount + 199) / 200
  }

  function Quota(quota: map<Name, nat>, owner: Name): nat {
    if owner in quota then quota[owner] else 0
  }

  // ---------- actions ----------

  /** New bytes since the last release: a product of two 32-bit words, kept to 32 bits. */
  function NewRam(s: RamState): nat {
    if s.slot <= s.lastIncrease then 0 else ((s.slot - s.lastIncrease) * s.ramPerBlock) % 0x1_0000_0000
  }

  function UpdateRamSupply(s: RamState): RamState {
    if s.slot <= s.lastIncrease then s
    else s.(maxRam := s.maxRam + NewRam(s), market := s.market.(base := s.market.base + NewRam(s)),
      lastIncrease := s.slot)
  }

  function BuyRam(s: RamState, payer: Name, receiver: Name, quant: int, rexOpen: bool): Result<RamState>
    requires MarketOk(s.market)
  {
    var s1 := UpdateRamSupply(s);
    :- Check(quant > 0);
    var fee := Fee(quant);
    var paid := quant - fee;
    var tokens1 :- Transfer(s1.tokens, payer, RAM_ACCOUNT, paid);
    var tokens2 :- Transfer(tokens1, payer, RAMFEE_ACCOUNT, fee);
    var tokens3 :- (if rexOpen then Transfer(tokens2, RAMFEE_ACCOUNT, REX_ACCOUNT, fee) else Ok(tokens2));
    var (market, bytes) := Convert(s1.market, Core, paid, Ram);
    :- Check(bytes > 0);
    Ok(s1.(market := market, tokens := tokens3, reserved := s1.reserved + bytes, ramStake := s1.ramStake + paid,
           quota := s1.quota[receiver := Quota(s1.quota, receiver) + bytes]))
  }

  /** Prices `bytes` on a copy of the market, as if they were sold, and buys for that much. */
  function BuyRamBytes(s: RamState, payer: Name, receiver: Name, bytes: nat, rexOpen: bool): Result<RamState>
    requires MarketOk(s.market)
  {
    BuyRam(s, payer, receiver, Convert(s.market, Ram, bytes, Core).1, rexOpen)
  }

  function SellRam(s: RamState, account: Name, bytes: int, rexOpen: bool): Result<RamState>
    requires MarketOk(s.market)
  {
    var s1 := UpdateRamSupply(s);
    :- Check(bytes > 0);
    :- Check(account in s1.quota);
    :- Check(s1.quota[account] >= bytes);
    var (market, out) := Convert(s1.market, Ram, bytes, Core);
    :- Check(out > 1);
    :- Check(s1.ramStake - out >= 0);
    var tokens1 :- Transfer(s1.tokens, RAM_ACCOUNT, account, out);
    var tokens2 :- Transfer(tokens1, account, RAMFEE_ACCOUNT, Fee(out));
    var tokens3 :- (if rexOpen then Transfer(tokens2, RAMFEE_ACCOUNT, REX_ACCOUNT, Fee(out)) else Ok(tokens2));
    Ok(s1.(market := market, tokens := tokens3, reserved := s1.reserved - bytes, ramStake := s1.ramStake - out,
           quota := s1.quota[account := s1.quota[account] - bytes]))
  }

  function SetRam(s: RamState, maxRam: int): Result<RamState> {
    if maxRam <= s.maxRam then Abort else
    :- Check(maxRam < MAX_RAM_LIMIT);
    :- Check(maxRam > s.reserved);
    Ok(s.(market := s.market.(base := s.market.base + (maxRam - s.maxRam)), maxRam := maxRam))
  }

  datatype RamAction =
    | Advance(slots: nat)
    | Buy(payer: Name, receiver: Name, quant: int, rexOpen: bool)
    | BuyBytes(payer: Name, receiver: Name, wanted: nat, rexOpen: bool)
    | Sell(account: Name, bytes: int, rexOpen: bool)
    | SetSize(maxRam: int)
    | SetRate(ramPerBlock: nat)
    | Outside(from: Name, to: Name, quantity: int)

  function Exec(s: RamState, a: RamAction): Result<RamState>
    requires MarketOk(s.market)
  {
    match a
    case Advance(slots) => Ok(s.(slot := s.slot + slots))
    case Buy(payer, receiver, quant, rexOpen) => BuyRam(s, payer, receiver, quant, rexOpen)
    case BuyBytes(payer, receiver, bytes, rexOpen) => BuyRamBytes(s, payer, receiver, bytes, rexOpen)
    case Sell(account, bytes, rexOpen) => SellRam(s, account, bytes, rexOpen)
    case SetSize(maxRam) => SetRam(s, maxRam)
    case SetRate(rate) =>
      :- Check(rate < 0x1_0000);
      Ok(UpdateRamSupply(s).(ramPerBlock := rate))
    case Outside(from, to, quantity) =>
      :- Check(from != RAM_ACCOUNT && to != RAM_ACCOUNT);
      var tokens :- Transfer(s.tokens, from, to, quantity);
      Ok(s.(tokens := tokens))
  }

  /** `init` on a chain where no RAM is reserved yet. */
  predicate Initial(s: RamState) {
    && s.market.supply == 100_000_000_000_000 && s.market.base == s.maxRam && s.market.quote > 0
    && s.maxRam > 0 && s.reserved == 0 && s.ramStake == 0 && s.quota == map[] && Holds(s.tokens, RAM_ACCOUNT) == 0
  }

  // ---------- the invariant ----------

  ghost function TotalQuota(quota: map<Name, nat>): int {
    SumOf<Name, nat>(quota, Units)
  }

  /** `quote0` is the quote connector at `init`: what the market was seeded with. */
  ghost predicate RamInv(s: RamState, quote0: int) {
    && MarketOk(s.market) && quote0 > 0
    && s.market.base + TotalQuota(s.quota) == s.maxRam
    && s.reserved == TotalQuota(s.quota)
    && s.ramStake == s.market.quote - quote0
    && Holds(s.tokens, RAM_ACCOUNT) == s.ramStake
    && quote0 * s.maxRam <= s.market.quote * s.market.base
  }

  lemma QuotaNonNegative(quota: map<Name, nat>)
    ensures TotalQuota(quota) >= 0
  {
    SumNonNegative<Name, nat>(quota, Units);
  }

  /** The market can always pay back everything it took in: the quote connector never falls below
      its seed, so the stake counter and the RAM account never go negative. */
  lemma QuoteAtLeastSeed(s: RamState, quote0: int)
    requires RamInv(s, quote0)
    ensures s.market.quote >= quote0 && s.ramStake >= 0
  {
    QuotaNonNegative(s.quota);
    if s.market.quote < quote0 {
      MulMono(s.market.base, s.maxRam, quote0);
      MulMono(s.market.quote + 1, quote0, s.market.base);
    }
  }

  lemma InitialInv(s: RamState)
    requires Initial(s)
    ensures RamInv(s, s.market.quote)
  {
  }

  /** Releasing RAM keeps the seed bound, because the quote connector is at least the seed. */
  lemma GrowKeeps(s: RamState, quote0: int, bytes: nat, s1: RamState)
    requires RamInv(s, quote0)
    requires s1.market == s.market.(base := s.market.base + bytes) && s1.maxRam == s.maxRam + bytes
    requires s1.quota == s.quota && s1.tokens == s.tokens && s1.reserved == s.reserved && s1.ramStake == s.ramStake
    ensures RamInv(s1, quote0)
  {
    QuoteAtLeastSeed(s, quote0);
    MulMono(quote0, s.market.quote, bytes);
    assert quote0 * (s.maxRam + bytes) == quote0 * s.maxRam + quote0 * bytes;
    assert s.market.quote * (s.market.base + bytes) == s.market.quote * s.market.base + s.market.quote * bytes;
  }

  lemma UpdateRamSupplyKeeps(s: RamState, quote0: int)
    requires RamInv(s, quote0)
    ensures RamInv(UpdateRamSupply(s), quote0)
  {
    if s.slot > s.lastIncrease {
      GrowKeeps(s, quote0, NewRam(s), UpdateRamSupply(s));
    }
  }

  /** A trade between the connectors keeps the seed bound when the quota moves with the base. */
  lemma TradeKeeps(s: RamState, quote0: int, s1: RamState, paid: int, bytes: int)
    requires RamInv(s, quote0)
    requires MarketOk(s1.market) && s.market.base * s.market.quote <= s1.market.base * s1.market.quote
    requires s1.market.quote == s.market.quote + paid && s1.market.base == s.market.base - bytes
    requires s1.maxRam == s.maxRam && s1.reserved == s.reserved + bytes && s1.ramStake == s.ramStake + paid
    requires TotalQuota(s1.quota) == TotalQuota(s.quota) + bytes
    requires Holds(s1.tokens, RAM_ACCOUNT) == Holds(s.tokens, RAM_ACCOUNT) + paid
    ensures RamInv(s1, quote0)
  {
  }

  lemma QuotaStore(quota: map<Name, nat>, owner: Name, bytes: nat)
    ensures TotalQuota(quota[owner := bytes]) == TotalQuota(quota) - Quota(quota, owner) + bytes
  {
    SumStore<Name, nat>(quota, Units, owner, bytes);
  }

  lemma BuyRamKeeps(s: RamState, quote0: int, payer: Name, receiver: Name, quant: int, rexOpen: bool)
    requires RamInv(s, quote0) && BuyRam(s, payer, receiver, quant, rexOpen).Ok?
    ensures RamInv(BuyRam(s, payer, receiver, quant, rexOpen).value, quote0)
  {
    hide Convert, TotalQuota, Transfer;
    UpdateRamSupplyKeeps(s, quote0);
    var s1 := UpdateRamSupply(s);
    var fee := Fee(quant);
    var paid := quant - fee;
    ConvertRefinesBancor(s1.market, Core, paid, Ram);
    TransferMoves(s1.tokens, payer, RAM_ACCOUNT, paid);
    var tokens1 := Transfer(s1.tokens, payer, RAM_ACCOUNT, paid).value;
    TransferMoves(tokens1, payer, RAMFEE_ACCOUNT, fee);
    var tokens2 := Transfer(tokens1, payer, RAMFEE_ACCOUNT, fee).value;
    if rexOpen {
      TransferMoves(tokens2, RAMFEE_ACCOUNT, REX_ACCOUNT, fee);
    }
    assert payer != RAM_ACCOUNT by { SelfTransferFails(s1.tokens, payer, paid); }
    var bytes := Convert(s1.market, Core, paid, Ram).1;
    QuotaStore(s1.quota, receiver, Quota(s1.quota, receiver) + bytes);
    TradeKeeps(s1, quote0, BuyRam(s, payer, receiver, quant, rexOpen).value, paid, bytes);
  }

  lemma SelfTransferFails(tokens: map<Name, nat>, n: Name, quantity: int)
    ensures Transfer(tokens, n, n, quantity).Abort?
  {
  }

  /** Selling RAM never fails for lack of stake or of tokens in the RAM account: the check that
      "shouldn't happen" cannot happen. */
  lemma SellRamKeeps(s: RamState, quote0: int, account: Name, bytes: int, rexOpen: bool)
    requires RamInv(s, quote0) && account != RAM_ACCOUNT && account != RAMFEE_ACCOUNT
    ensures SellRam(s, account, bytes, rexOpen).Ok? <==>
      && bytes > 0 && account in s.quota && s.quota[account] >= bytes
      && Convert(UpdateRamSupply(s).market, Ram, bytes, Core).1 > 1
    ensures SellRam(s, account, bytes, rexOpen).Ok? ==> RamInv(SellRam(s, account, bytes, rexOpen).value, quote0)
  {
    hide Convert, TotalQuota, RamInv;
    UpdateRamSupplyKeeps(s, quote0);
    var s1 := UpdateRamSupply(s);
    assert MarketOk(s1.market) by { MarketIsOk(s1, quote0); }
    if bytes > 0 && account in s.quota && s.quota[account] >= bytes && Convert(s1.market, Ram, bytes, Core).1 > 1 {
      var (market, out) := Convert(s1.market, Ram, bytes, Core);
      SaleIsFunded(s1, quote0, account, bytes);
      SaleTransfers(s1, account, out, rexOpen);
      SaleKeeps(s, quote0, account, bytes, rexOpen);
    }
  }

  lemma MarketIsOk(s: RamState, quote0: int)
    requires RamInv(s, quote0)
    ensures MarketOk(s.market)
  {
  }

  /** The proceeds of any sale are within the stake, which the RAM account holds. */
  lemma SaleIsFunded(s: RamState, quote0: int, account: Name, bytes: int)
    requires RamInv(s, quote0) && bytes > 0 && account in s.quota && s.quota[account] >= bytes
    ensures MarketOk(s.market) && Convert(s.market, Ram, bytes, Core).1 <= s.ramStake == Holds(s.tokens, RAM_ACCOUNT)
  {
    hide Convert, TotalQuota;
    ConvertRefinesBancor(s.market, Ram, bytes, Core);
    var (market, out) := Convert(s.market, Ram, bytes, Core);
    QuotaStore(s.quota, account, s.quota[account] - bytes);
    QuotaNonNegative(s.quota[account := s.quota[account] - bytes]);
    if market.quote < quote0 {
      MulMono(market.base, s.maxRam, quote0);
      MulMono(market.quote + 1, quote0, market.base);
    }
  }

  lemma SaleTransfers(s: RamState, account: Name, out: int, rexOpen: bool)
    requires account != RAM_ACCOUNT && account != RAMFEE_ACCOUNT && 1 < out <= Holds(s.tokens, RAM_ACCOUNT)
    ensures Transfer(s.tokens, RAM_ACCOUNT, account, out).Ok?
    ensures var t1 := Transfer(s.tokens, RAM_ACCOUNT, account, out).value;
      && Transfer(t1, account, RAMFEE_ACCOUNT, Fee(out)).Ok?
      && var t2 := Transfer(t1, account, RAMFEE_ACCOUNT, Fee(out)).value;
        && Transfer(t2, RAMFEE_ACCOUNT, REX_ACCOUNT, Fee(out)).Ok?
        && Holds(t2, RAM_ACCOUNT) == Holds(s.tokens, RAM_ACCOUNT) - out
        && Holds(Transfer(t2, RAMFEE_ACCOUNT, REX_ACCOUNT, Fee(out)).value, RAM_ACCOUNT)
            == Holds(s.tokens, RAM_ACCOUNT) - out
  {
    TransferMoves(s.tokens, RAM_ACCOUNT, account, out);
    var t1 := Transfer(s.tokens, RAM_ACCOUNT, account, out).value;
    TransferMoves(t1, account, RAMFEE_ACCOUNT, Fee(out));
    var t2 := Transfer(t1, account, RAMFEE_ACCOUNT, Fee(out)).value;
    TransferMoves(t2, RAMFEE_ACCOUNT, REX_ACCOUNT, Fee(out));
  }

  lemma SaleKeeps(s: RamState, quote0: int, account: Name, bytes: int, rexOpen: bool)
    requires RamInv(s, quote0) && account != RAM_ACCOUNT && account != RAMFEE_ACCOUNT
    requires SellRam(s, account, bytes, rexOpen).Ok?
    ensures RamInv(SellRam(s, account, bytes, rexOpen).value, quote0)
  {
    hide Convert, TotalQuota, Transfer;
    UpdateRamSupplyKeeps(s, quote0);
    var s1 := UpdateRamSupply(s);
    ConvertRefinesBancor(s1.market, Ram, bytes, Core);
    var out := Convert(s1.market, Ram, bytes, Core).1;
    SaleIsFunded(s1, quote0, account, bytes);
    SaleTransfers(s1, account, out, rexOpen);
    QuotaStore(s1.quota, account, s1.quota[account] - bytes);
    TradeKeeps(s1, quote0, SellRam(s, account, bytes, rexOpen).value, -out, -bytes);
  }

  /** A seller that is the fee account itself aborts, so no sale needs to be excluded. */
  lemma CustodianSalesAbort(s: RamState, account: Name, bytes: int, rexOpen: bool)
    requires MarketOk(s.market) && (account == RAM_ACCOUNT || account == RAMFEE_ACCOUNT)
    requires MarketOk(UpdateRamSupply(s).market)
    ensures SellRam(s, account, bytes, rexOpen).Abort?
  {
    hide Convert;
  }

  // ---------- runs ----------

  lemma ExecKeeps(s: RamState, quote0: int, a: RamAction)
    requires RamInv(s, quote0) && Exec(s, a).Ok?
    ensures RamInv(Exec(s, a).value, quote0)
  {
    hide BuyRam, SellRam, TotalQuota, Convert, Transfer;
    match a
    case Advance(_) =>
    case Buy(payer, receiver, quant, rexOpen) => BuyRamKeeps(s, quote0, payer, receiver, quant, rexOpen);
    case BuyBytes(payer, receiver, bytes, rexOpen) =>
      BuyRamKeeps(s, quote0, payer, receiver, Convert(s.market, Ram, bytes, Core).1, rexOpen);
    case Sell(account, bytes, rexOpen) =>
      UpdateRamSupplyKeeps(s, quote0);
      if account == RAM_ACCOUNT || account == RAMFEE_ACCOUNT {
        CustodianSalesAbort(s, account, bytes, rexOpen);
      } else {
        SellRamKeeps(s, quote0, account, bytes, rexOpen);
      }
    case SetSize(maxRam) => GrowKeeps(s, quote0, maxRam - s.maxRam, SetRam(s, maxRam).value);
    case SetRate(rate) => UpdateRamSupplyKeeps(s, quote0);
    case Outside(from, to, quantity) => TransferMoves(s.tokens, from, to, quantity);
  }

  lemma ExecMarketOk(s: RamState, a: RamAction)
    requires MarketOk(s.market) && Exec(s, a).Ok?
    ensures MarketOk(Exec(s, a).value.market)
  {
    hide Convert, Transfer;
    match a
    case Buy(_, _, quant, _) => BuyMarketOk(s, quant);
    case BuyBytes(_, _, bytes, _) => BuyMarketOk(s, Convert(s.market, Ram, bytes, Core).1);
    case Sell(account, bytes, rexOpen) =>
      ConvertRefinesBancor(UpdateRamSupply(s).market, Ram, bytes, Core);
    case _ =>
  }

  lemma BuyMarketOk(s: RamState, quant: int)
    requires MarketOk(s.market)
    ensures MarketOk(UpdateRamSupply(s).market)
    ensures quant > 0 ==> MarketOk(Convert(UpdateRamSupply(s).market, Core, quant - Fee(quant), Ram).0)
  {
    hide Convert;
    if quant > 0 {
      ConvertRefinesBancor(UpdateRamSupply(s).market, Core, quant - Fee(quant), Ram);
    }
  }

  /** An action, or nothing if it aborts. */
  ghost function Step(s: RamState, a: RamAction): (r: RamState)
    requires MarketOk(s.market)
    ensures MarketOk(r.market)
  {
    match Exec(s, a)
    case Ok(r) => ExecMarketOk(s, a); r
    case Abort => s
  }

  ghost function Run(s: RamState, actions: seq<RamAction>): (r: RamState)
    requires MarketOk(s.market)
    ensures MarketOk(r.market)
  {
    if actions == [] then s else Step(Run(s, actions[..|actions| - 1]), actions[|actions| - 1])
  }

  /** RAM solvency after any sequence of actions on a fresh market. */
  lemma {:induction false} RamSolvent(genesis: RamState, actions: seq<RamAction>)
    requires Initial(genesis)
    ensures var s := Run(genesis, actions);
      && RamInv(s, genesis.market.quote)
      && s.market.quote >= genesis.market.quote
      && Holds(s.tokens, RAM_ACCOUNT) == s.ramStake == s.market.quote - genesis.market.quote
      && s.market.base + TotalQuota(s.quota) == s.maxRam && s.reserved == TotalQuota(s.quota)
    decreases |actions|
  {
    hide Exec, RamInv, TotalQuota;
    assert MarketOk(genesis.market);
    var s := Run(genesis, actions);
    if actions == [] {
      InitialInv(s);
    } else {
      var rest, a := actions[..|actions| - 1], actions[|actions| - 1];
      RamSolvent(genesis, rest);
      if Exec(Run(genesis, rest), a).Ok? {
        ExecKeeps(Run(genesis, rest), genesis.market.quote, a);
      }
    }
    QuoteAtLeastSeed(s, genesis.market.quote);
    SolvencyMeans(s, genesis.market.quote);
  }

  lemma SolvencyMeans(s: RamState, quote0: int)
    requires RamInv(s, quote0)
    ensures Holds(s.tokens, RAM_ACCOUNT) == s.ramStake == s.market.quote - quote0
    ensures s.market.base + TotalQuota(s.quota) == s.maxRam && s.reserved == TotalQuota(s.quota)
  {
  }

  // ---------- the contract's own form ----------

  class RamContract {
    var slot: nat
    const market: ExchangeState
    var maxRam: int
    var reserved: int
    var ramStake: int
    var ramPerBlock: nat
    var lastIncrease: nat
    var quota: map<Name, nat>
    var tokens: map<Name, nat>

    function Tables(): RamState
      reads this, market
    {
      RamState(slot, market.Value(), maxRam, reserved, ramStake, ramPerBlock, lastIncrease, quota, tokens)
    }

    constructor (s: RamState)
      ensures Tables() == s && fresh(market)
    {
      slot, maxRam, reserved, ramStake := s.slot, s.maxRam, s.reserved, s.ramStake;
      ramPerBlock, lastIncrease, quota, tokens := s.ramPerBlock, s.lastIncrease, s.quota, s.tokens;
      market := new ExchangeState(s.market);
    }

    method InlineTransfer(from: Name, to: Name, quantity: int) returns (ok: bool)
      modifies this`tokens
      ensures ok == Transfer(old(tokens), from, to, quantity).Ok?
      ensures ok ==> tokens == Transfer(old(tokens), from, to, quantity).value
    {
      if from == to || quantity <= 0 || from !in tokens || tokens[from] < quantity {
        return false;
      }
      tokens := tokens[from := tokens[from] - quantity];
      tokens := tokens[to := (if to in tokens then tokens[to] else 0) + quantity];
      return true;
    }

    method UpdateSupply()
      modifies this`maxRam, this`lastIncrease, market`base
      ensures Tables() == UpdateRamSupply(old(Tables()))
    {
      if slot <= lastIncrease {
        return;
      }
      var newRam := ((slot - lastIncrease) * ramPerBlock) % 0x1_0000_0000;
      maxRam := maxRam + newRam;
      market.base := market.base + newRam;
      lastIncrease := slot;
    }

    method DoBuyRam(payer: Name, receiver: Name, quant: int, rexOpen: bool) returns (ok: bool)
      requires MarketOk(market.Value())
      modifies this, market
      ensures ok == BuyRam(old(Tables()), payer, receiver, quant, rexOpen).Ok?
      ensures ok ==> Tables() == BuyRam(old(Tables()), payer, receiver, quant, rexOpen).value
    {
      hide Convert, Transfer;
      UpdateSupply();
      if quant <= 0 {
        return false;
      }
      var fee := (quant + 199) / 200;
      var paid := quant - fee;
      ok := InlineTransfer(payer, RAM_ACCOUNT, paid);
      if !ok {
        return;
      }
      ok := InlineTransfer(payer, RAMFEE_ACCOUNT, fee);
      if !ok {
        return;
      }
      if rexOpen {
        ok := InlineTransfer(RAMFEE_ACCOUNT, REX_ACCOUNT, fee);
        if !ok {
          return;
        }
      }
      var _, bytes := market.ConvertTo(Core, paid, Ram);
      if bytes <= 0 {
        return false;
      }
      reserved := reserved + bytes;
      ramStake := ramStake + paid;
      if receiver !in quota {
        quota := quota[receiver := bytes];
      } else {
        quota := quota[receiver := quota[receiver] + bytes];
      }
    }

    /** Prices on a copy of the market row, which is then dropped. */
    method DoBuyRamBytes(payer: Name, receiver: Name, bytes: nat, rexOpen: bool) returns (ok: bool)
      requires MarketOk(market.Value())
      modifies this, market
      ensures ok == BuyRamBytes(old(Tables()), payer, receiver, bytes, rexOpen).Ok?
      ensures ok ==> Tables() == BuyRamBytes(old(Tables()), payer, receiver, bytes, rexOpen).value
    {
      hide Convert, BuyRam;
      var copy := new ExchangeState(market.Value());
      var _, quant := copy.ConvertTo(Ram, bytes, Core);
      ok := DoBuyRam(payer, receiver, quant, rexOpen);
    }

    method DoSellRam(account: Name, bytes: int, rexOpen: bool) returns (ok: bool)
      requires MarketOk(market.Value())
      modifies this, market
      ensures ok == SellRam(old(Tables()), account, bytes, rexOpen).Ok?
      ensures ok ==> Tables() == SellRam(old(Tables()), account, bytes, rexOpen).value
    {
      hide Convert, Transfer;
      UpdateSupply();
      if bytes <= 0 || account !in quota || quota[account] < bytes {
        return false;
      }
      var _, out := market.ConvertTo(Ram, bytes, Core);
      if out <= 1 {
        return false;
      }
      reserved := reserved - bytes;
      ramStake := ramStake - out;
      if ramStake < 0 {
        return false;
      }
      quota := quota[account := quota[account] - bytes];
      ok := InlineTransfer(RAM_ACCOUNT, account, out);
      if !ok {
        return;
      }
      ok := InlineTransfer(account, RAMFEE_ACCOUNT, (out + 199) / 200);
      if !ok {
        return;
      }
      if rexOpen {
        ok := InlineTransfer(RAMFEE_ACCOUNT, REX_ACCOUNT, (out + 199) / 200);
      }
    }

    method DoSetRam(newSize: int) returns (ok: bool)
      modifies this, market
      ensures ok == SetRam(old(Tables()), newSize).Ok?
      ensures ok ==> Tables() == SetRam(old(Tables()), newSize).value
    {
      if newSize <= maxRam || newSize >= MAX_RAM_LIMIT || newSize <= reserved {
        return false;
      }
      market.base := market.base + (newSize - maxRam);
      maxRam := newSize;
      return true;
    }

    /** New RAM is released at the old rate before the rate changes. */
    method DoSetRamRate(rate: nat)
      modifies this`maxRam, this`lastIncrease, this`ramPerBlock, market`base
      ensures Tables() == UpdateRamSupply(old(Tables())).(ramPerBlock := rate)
    {
      UpdateSupply();
      ramPerBlock := rate;
    }
  }
}
