/** The two-connector exchange behind the RAM market, with both connector weights one half. */
module Exchange {
  import opened Arithmetic

  datatype Symbol = RamCore | Ram | Core

  /** Supply of the intermediate token, and the balances of the two connectors. */
  datatype Market = Market(supply: int, base: int, quote: int)

  ghost predicate MarketOk(m: Market) {
    m.supply > 0 && m.base > 0 && m.quote > 0
  }

  function Square(a: int): int {
    a * a
  }

  // ---------- the square-root step, in exact arithmetic ----------

  /** `issued` is the largest amount E with ((S+E)/S)^2 <= 1 + T/C. */
  predicate IsIssued(supply: int, connector: int, amount: int, issued: int) {
    && Square(supply + issued) * connector <= Square(supply) * (connector + amount)
    && Square(supply) * (connector + amount) < Square(supply + issued + 1) * connector
  }

  lemma SquareMono(a: int, b: int)
    requires 0 <= a <= b
    ensures Square(a) <= Square(b)
  {
    MulMono(a, b, a);
    MulMono(a, b, b);
  }

  lemma IssuedUnique(supply: int, connector: int, amount: int, e: int, f: int)
    requires supply > 0 && connector > 0 && e >= 0 && f >= 0
    requires IsIssued(supply, connector, amount, e) && IsIssued(supply, connector, amount, f)
    ensures e == f
  {
    if e < f {
      SquareMono(supply + e + 1, supply + f);
      MulMono(Square(supply + e + 1), Square(supply + f), connector);
    } else if f < e {
      SquareMono(supply + f + 1, supply + e);
      MulMono(Square(supply + f + 1), Square(supply + e), connector);
    }
  }

  /** The largest amount below `hi` that does not exceed the bound. */
  lemma {:induction false} IssuedExistsBelow(supply: int, connector: int, amount: int, hi: nat)
    requires supply > 0 && connector > 0 && amount >= 0
    requires Square(supply) * (connector + amount) < Square(supply + hi) * connector
    ensures exists e: nat :: e < hi && IsIssued(supply, connector, amount, e)
    decreases hi
  {
    if hi == 0 {
      MulMono(connector, connector + amount, Square(supply));
    } else if Square(supply + hi - 1) * connector <= Square(supply) * (connector + amount) {
      assert IsIssued(supply, connector, amount, hi - 1);
    } else {
      IssuedExistsBelow(supply, connector, amount, hi - 1);
    }
  }

  lemma IssuedExists(supply: int, connector: int, amount: int)
    requires supply > 0 && 0 <= amount <= connector && connector > 0
    ensures exists e: nat :: e <= supply && IsIssued(supply, connector, amount, e)
  {
    assert Square(supply + supply + 1) >= 4 * Square(supply) + 1 by {
      assert Square(supply + supply + 1) == 4 * Square(supply) + 4 * supply + 1;
    }
    MulMono(connector + amount, 2 * connector, Square(supply));
    MulMono(4 * Square(supply) + 1, Square(supply + supply + 1), connector);
    DoubleBelowQuadruple(Square(supply), connector);
    IssuedExistsBelow(supply, connector, amount, supply + 1);
  }

  lemma DoubleBelowQuadruple(a: int, b: int)
    requires a >= 0 && b > 0
    ensures a * (2 * b) < (4 * a + 1) * b
  {
    MulMono(0, a, b);
    assert a * (2 * b) == 2 * (a * b);
    assert (4 * a + 1) * b == 4 * (a * b) + b;
  }

  function Issued(supply: int, connector: int, amount: int): (issued: nat)
    requires supply > 0 && 0 <= amount <= connector && connector > 0
    ensures IsIssued(supply, connector, amount, issued) && issued <= supply
  {
    IssuedExists(supply, connector, amount);
    assert forall e: nat, f: nat | IsIssued(supply, connector, amount, e) && IsIssued(supply, connector, amount, f) ::
      e == f by {
      forall e: nat, f: nat | IsIssued(supply, connector, amount, e) && IsIssued(supply, connector, amount, f)
        ensures e == f
      {
        IssuedUnique(supply, connector, amount, e, f);
      }
    }
    var e: nat :| e <= supply && IsIssued(supply, connector, amount, e);
    e
  }

  /** What `issued` intermediate tokens are worth in a connector when `supply` remain. */
  function Released(supply: int, connector: int, issued: int): int
    requires supply > 0
  {
    MulPositive(supply, supply);
    (connector * (Square(supply + issued) - Square(supply))) / Square(supply)
  }

  // ---------- conversions ----------

  function Connector(m: Market, s: Symbol): int
    requires s != RamCore
  {
    if s == Ram then m.base else m.quote
  }

  function WithConnector(m: Market, s: Symbol, balance: int): Market
    requires s != RamCore
  {
    if s == Ram then m.(base := balance) else m.(quote := balance)
  }

  function ToExchange(m: Market, s: Symbol, amount: int): (Market, int)
    requires MarketOk(m) && amount >= 0 && s != RamCore
  {
    var connector := Connector(m, s) + amount;
    var issued := Issued(m.supply, connector, amount);
    (WithConnector(m.(supply := m.supply + issued), s, connector), issued)
  }

  function FromExchange(m: Market, s: Symbol, amount: int): (Market, int)
    requires 0 <= amount < m.supply && s != RamCore
  {
    var out := Released(m.supply - amount, Connector(m, s), amount);
    (WithConnector(m.(supply := m.supply - amount), s, Connector(m, s) - out), out)
  }

  /** `convert` between the two connectors: through the intermediate token. */
  function Convert(m: Market, from: Symbol, amount: int, to: Symbol): (Market, int)
    requires MarketOk(m) && amount >= 0 && from != RamCore && to != RamCore
  {
    var (m1, issued) := ToExchange(m, from, amount);
    FromExchange(m1, to, issued)
  }

  // ---------- main results ----------

  /** One square-root step followed by one squaring step releases no more than proportionally. */
  lemma TwoHopBound(supply: int, inBalance: int, outBalance: int, amount: int)
    requires supply > 0 && inBalance > 0 && outBalance > 0 && amount >= 0
    ensures var out := Released(supply, outBalance, Issued(supply, inBalance + amount, amount));
      0 <= out && out * (inBalance + amount) <= outBalance * amount
  {
    hide Square;
    var c := inBalance + amount;
    var e := Issued(supply, c, amount);
    SquarePositive(supply);
    SquareMono(supply, supply + e);
    var gain := Square(supply + e) - Square(supply);
    MulMono(0, gain, outBalance);
    FloorNonNegative(outBalance * gain, Square(supply));
    Floor(outBalance * gain, Square(supply));
    HopArithmetic(Square(supply), Square(supply + e), c, amount, outBalance, Released(supply, outBalance, e));
  }

  lemma SquarePositive(a: int)
    requires a > 0
    ensures Square(a) > 0
  {
  }

  lemma HopArithmetic(s2: int, e2: int, c: int, amount: int, balance: int, out: int)
    requires s2 > 0 && c > 0 && balance > 0
    requires e2 * c <= s2 * (c + amount)
    requires s2 * out <= balance * (e2 - s2)
    ensures out * c <= balance * amount
  {
    assert (e2 - s2) * c <= s2 * amount by {
      assert s2 * (c + amount) == s2 * c + s2 * amount;
      assert (e2 - s2) * c == e2 * c - s2 * c;
    }
    calc {
      (out * c) * s2;
    == (s2 * out) * c;
    <= { MulMono(s2 * out, balance * (e2 - s2), c); }
      (balance * (e2 - s2)) * c;
    == balance * ((e2 - s2) * c);
    <= { MulMono((e2 - s2) * c, s2 * amount, balance); }
      balance * (s2 * amount);
    == (balance * amount) * s2;
    }
    Cancel(out * c, balance * amount, s2);
  }

  /** Nor does it release much less: rounding costs at most one unit and five parts in `supply` of
      the paying connector. */
  lemma TwoHopLower(supply: int, inBalance: int, outBalance: int, amount: int)
    requires supply > 0 && inBalance > 0 && outBalance > 0 && amount >= 0
    ensures var out := Released(supply, outBalance, Issued(supply, inBalance + amount, amount));
      supply * (outBalance * amount) < (inBalance + amount) * (supply * (out + 1) + 5 * outBalance)
  {
    hide Square;
    var c := inBalance + amount;
    var e := Issued(supply, c, amount);
    SquarePositive(supply);
    NextSquare(supply, e);
    Floor(outBalance * (Square(supply + e) - Square(supply)), Square(supply));
    assert Square(supply) == supply * supply by { SquareMeans(supply); }
    HopRounding(supply, Square(supply + e), Square(supply + e + 1), c, amount, outBalance,
      Released(supply, outBalance, e));
  }

  lemma SquareMeans(a: int)
    ensures Square(a) == a * a
  {
  }

  lemma NextSquare(supply: int, e: int)
    requires 0 <= e <= supply && supply > 0
    ensures Square(supply + e + 1) <= Square(supply + e) + 5 * supply
  {
    assert Square(supply + e + 1) == Square(supply + e) + 2 * (supply + e) + 1;
  }

  /** `e2` and `n2` are the squares of the supply with what is issued, and with one unit more. */
  lemma HopRounding(s: int, e2: int, n2: int, c: int, amount: int, balance: int, out: int)
    requires s > 0 && c > 0 && balance > 0 && n2 <= e2 + 5 * s
    requires (s * s) * (c + amount) < n2 * c
    requires balance * (e2 - s * s) < (s * s) * out + s * s
    ensures s * (balance * amount) < c * (s * (out + 1) + 5 * balance)
  {
    var s2 := s * s;
    GainLower(s, s2, e2, n2, c, amount);
    PayoutLower(s2, e2 - s2, 5 * s, c, amount, balance, out);
    DivideRoot(s, balance * amount, out + 1, balance, c);
    CancelLeft(s * (balance * amount), c * (s * (out + 1) + 5 * balance), s);
  }

  /** The gain in squares is at least its exact value less what one more unit would add. */
  lemma GainLower(s: int, s2: int, e2: int, n2: int, c: int, amount: int)
    requires c > 0 && n2 <= e2 + 5 * s && s2 * (c + amount) < n2 * c
    ensures s2 * amount < (e2 - s2 + 5 * s) * c
  {
    MulMono(n2, e2 + 5 * s, c);
    assert s2 * (c + amount) == s2 * c + s2 * amount;
    assert (e2 + 5 * s) * c == s2 * c + (e2 - s2 + 5 * s) * c;
  }

  lemma PayoutLower(s2: int, gain: int, loss: int, c: int, amount: int, balance: int, out: int)
    requires c > 0 && balance > 0 && s2 * amount < (gain + loss) * c && balance * gain < s2 * out + s2
    ensures s2 * (balance * amount) < c * (s2 * (out + 1) + loss * balance)
  {
    assert s2 * out + s2 == s2 * (out + 1);
    MulMono(s2 * amount, (gain + loss) * c, balance);
    assert balance * (s2 * amount) == s2 * (balance * amount);
    assert balance * ((gain + loss) * c) == (balance * gain + loss * balance) * c;
    StrictMul(balance * gain + loss * balance, s2 * (out + 1) + loss * balance, c);
  }

  lemma StrictMul(a: int, b: int, c: int)
    requires a < b && c > 0
    ensures a * c < c * b
  {
    MulMono(a + 1, b, c);
    assert (a + 1) * c == a * c + c;
  }

  lemma DivideRoot(s: int, value: int, out: int, balance: int, c: int)
    ensures (s * s) * value == s * (s * value)
    ensures c * ((s * s) * out + 5 * s * balance) == s * (c * (s * out + 5 * balance))
  {
    assert (s * s) * out + 5 * s * balance == s * (s * out + 5 * balance) by {
      assert (s * s) * out == s * (s * out);
      assert 5 * s * balance == s * (5 * balance);
    }
  }

  lemma CancelLeft(a: int, b: int, c: int)
    requires c * a < c * b && c > 0
    ensures a < b
  {
    CancelStrict(a, b, c);
  }

  /** What the proportional bound on the payout means for the two balances. */
  lemma ShareOfBalance(i: int, o: int, amount: int, out: int)
    requires i > 0 && o > 0 && amount >= 0 && out * (i + amount) <= o * amount
    ensures out <= (o * amount) / (i + amount)
    ensures i * o <= (i + amount) * (o - out) && o - out > 0
  {
    FloorAtLeast(out, o * amount, i + amount);
    assert (i + amount) * (o - out) == i * o + o * amount - out * (i + amount);
    MulPositive(i, o);
    if o - out <= 0 {
      MulMono(o - out, 0, i + amount);
    }
  }

  /** A conversion taken apart: the amount goes into one connector, the payout comes out of the
      other, and the supply is as before. */
  lemma ConvertOutcome(m: Market, from: Symbol, amount: int, to: Symbol)
    requires MarketOk(m) && amount >= 0 && from != RamCore && to != RamCore && from != to
    ensures var (m1, out) := Convert(m, from, amount, to);
      && out == Released(m.supply, Connector(m, to), Issued(m.supply, Connector(m, from) + amount, amount))
      && m1.supply == m.supply
      && Connector(m1, from) == Connector(m, from) + amount
      && Connector(m1, to) == Connector(m, to) - out
  {
    hide Square, Issued, Released, IsIssued;
  }

  lemma ConnectorProduct(m: Market, from: Symbol, to: Symbol)
    requires from != RamCore && to != RamCore && from != to
    ensures Connector(m, from) * Connector(m, to) == m.base * m.quote
    ensures MarketOk(m) <==> m.supply > 0 && Connector(m, from) > 0 && Connector(m, to) > 0
  {
  }

  /** The two-hop exchange refines one-hop Bancor: it leaves the supply of the intermediate token
      unchanged, takes exactly `amount` in, pays at most the proportional share of the other
      connector, keeps that connector positive, and never lowers the product of the connectors. */
  lemma ConvertRefinesBancor(m: Market, from: Symbol, amount: int, to: Symbol)
    requires MarketOk(m) && amount >= 0 && from != RamCore && to != RamCore && from != to
    ensures var (m1, out) := Convert(m, from, amount, to);
      && MarketOk(m1) && m1.supply == m.supply
      && Connector(m1, from) == Connector(m, from) + amount
      && Connector(m1, to) == Connector(m, to) - out
      && 0 <= out <= (Connector(m, to) * amount) / (Connector(m, from) + amount)
      && out * (Connector(m, from) + amount) <= Connector(m, to) * amount
      && m.base * m.quote <= m1.base * m1.quote
  {
    hide Convert, Connector, MarketOk, Square, Issued, Released;
    var (m1, out) := Convert(m, from, amount, to);
    ConnectorProduct(m, from, to);
    ConvertOutcome(m, from, amount, to);
    TwoHopBound(m.supply, Connector(m, from), Connector(m, to), amount);
    ShareOfBalance(Connector(m, from), Connector(m, to), amount, out);
    ConnectorProduct(m1, from, to);
  }

  /** And it stays close to it from below: rounding costs at most one unit and five parts in
      `supply` of the paying connector. */
  lemma ConvertNearBancor(m: Market, from: Symbol, amount: int, to: Symbol)
    requires MarketOk(m) && amount >= 0 && from != RamCore && to != RamCore && from != to
    ensures var out := Convert(m, from, amount, to).1; var i, o := Connector(m, from), Connector(m, to);
      m.supply * (o * amount) < (i + amount) * (m.supply * (out + 1) + 5 * o)
  {
    hide Convert, Connector, MarketOk, Square, Issued, Released;
    ConnectorProduct(m, from, to);
    ConvertOutcome(m, from, amount, to);
    TwoHopLower(m.supply, Connector(m, from), Connector(m, to), amount);
  }

  /** Converting and converting the proceeds straight back never gains. */
  lemma RoundTripNeverGains(m: Market, from: Symbol, amount: int, to: Symbol)
    requires MarketOk(m) && amount >= 0 && from != RamCore && to != RamCore && from != to
    ensures var (m1, out) := Convert(m, from, amount, to);
      out >= 0 && MarketOk(m1) && Convert(m1, to, out, from).1 <= amount
  {
    hide Convert, Connector, MarketOk;
    ConnectorProduct(m, from, to);
    ConvertRefinesBancor(m, from, amount, to);
    var (m1, out) := Convert(m, from, amount, to);
    ConvertRefinesBancor(m1, to, out, from);
    NoGain(Connector(m, from), Connector(m, to), amount, out, Convert(m1, to, out, from).1);
  }

  lemma NoGain(i: int, o: int, amount: int, out: int, back: int)
    requires o > 0 && out * (i + amount) <= o * amount
    requires back * ((o - out) + out) <= (i + amount) * out
    ensures back <= amount
  {
    assert back * o <= amount * o;
    Cancel(back, amount, o);
  }

  // ---------- the exchange object ----------

  /** The exchange row, converting in place. */
  class ExchangeState {
    var supply: int
    var base: int
    var quote: int

    function Value(): Market
      reads this
    {
      Market(supply, base, quote)
    }

    constructor (m: Market)
      ensures Value() == m
    {
      supply, base, quote := m.supply, m.base, m.quote;
    }

    method ConvertToExchange(s: Symbol, amount: int) returns (issued: int)
      requires MarketOk(Value()) && amount >= 0 && s != RamCore
      modifies this
      ensures (Value(), issued) == ToExchange(old(Value()), s, amount)
    {
      if s == Ram {
        issued := Issued(supply, base + amount, amount);
        base := base + amount;
      } else {
        issued := Issued(supply, quote + amount, amount);
        quote := quote + amount;
      }
      supply := supply + issued;
    }

    method ConvertFromExchange(s: Symbol, amount: int) returns (out: int)
      requires 0 <= amount < supply && s != RamCore
      modifies this
      ensures (Value(), out) == FromExchange(old(Value()), s, amount)
    {
      if s == Ram {
        out := Released(supply - amount, base, amount);
        base := base - out;
      } else {
        out := Released(supply - amount, quote, amount);
        quote := quote - out;
      }
      supply := supply - amount;
    }

    /** `convert`: repeats single conversions until the wanted token is reached. Only the
        intermediate token cannot be converted into itself. */
    method ConvertTo(from: Symbol, amount: int, to: Symbol) returns (ok: bool, out: int)
      requires MarketOk(Value()) && amount >= 0
      requires from == RamCore ==> amount < supply
      modifies this
      ensures ok <==> !(from == RamCore && to == RamCore)
      ensures from != RamCore && to != RamCore ==> (Value(), out) == Convert(old(Value()), from, amount, to)
      ensures from != RamCore && to == RamCore ==> (Value(), out) == ToExchange(old(Value()), from, amount)
      ensures from == RamCore && to != RamCore ==> (Value(), out) == FromExchange(old(Value()), to, amount)
      decreases from != RamCore
    {
      var reached;
      if from != RamCore {
        out := ConvertToExchange(from, amount);
        reached := RamCore;
      } else {
        if to == RamCore {
          return false, 0;
        }
        out := ConvertFromExchange(to, amount);
        reached := to;
      }
      if to != reached {
        ok, out := ConvertTo(reached, out, to);
      } else {
        ok := true;
      }
    }
  }
}
