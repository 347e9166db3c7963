/**
 * The paper trader: a local stand-in for an exchange that keeps a simulated
 * portfolio, derives a fee factor from its configuration, truncates fees to
 * eight decimal places and emits `trade` and `portfolioUpdate` events.
 *
 * The configuration is passed in rather than loaded; emitted events are
 * appended to the `events` log. Amounts are reals, not IEEE doubles.
 */
module PaperTrading {
  import opened Options
  import opened Text

  datatype SimulationBalance = SimulationBalance(asset: real, currency: real)

  /** The `paperTrader` section of the configuration; `fees` holds the `fee…` keys. */
  datatype CalcConfig = CalcConfig(fees: map<string, real>, feeUsing: string, slippage: real, simulationBalance: SimulationBalance)

  /** The `watch` section of the configuration. */
  datatype WatchConfig = WatchConfig(currency: string, asset: string)

  /** The configuration key the fee is read from: "fee" and `feeUsing` with its first letter upper-cased. */
  function FeeKey(feeUsing: string): (k: string)
    ensures |k| == 3 + |feeUsing| && k[..3] == "fee"
    ensures feeUsing != [] ==> k[3] == Upper(feeUsing[0]) && k[4..] == feeUsing[1..]
  {
    "fee" + UpperFirst(feeUsing)
  }

  /** The two fee sources the configuration offers. */
  lemma MakerAndTakerKeys()
    ensures FeeKey("maker") == "feeMaker"
    ensures FeeKey("taker") == "feeTaker"
  {
    assert UpperFirst("maker") == "Maker" by {
      assert UpperFirst("maker")[0] == 'M';
      assert UpperFirst("maker")[1..] == "aker";
    }
    assert UpperFirst("taker") == "Taker" by {
      assert UpperFirst("taker")[0] == 'T';
      assert UpperFirst("taker")[1..] == "aker";
    }
  }

  /**
   * The fee factor `1 - (fee + slippage) / 100`. A missing fee key makes the
   * sum NaN, which is `None` here.
   */
  function FeeFactor(settings: CalcConfig): (f: Option<real>)
    ensures f.Some? <==> FeeKey(settings.feeUsing) in settings.fees
    ensures f.Some? ==> (1.0 - f.value) * 100.0 == settings.fees[FeeKey(settings.feeUsing)] + settings.slippage
    ensures f.Some? ==> (0.0 <= f.value <= 1.0 <==> 0.0 <= settings.fees[FeeKey(settings.feeUsing)] + settings.slippage <= 100.0)
  {
    var key := FeeKey(settings.feeUsing);
    if key in settings.fees then Some(1.0 - (settings.fees[key] + settings.slippage) / 100.0) else None
  }

  /** A balance as the portfolio holds it: `false` before it is set, NaN, or a number. */
  datatype BalanceValue = Unset | NotANumber | Amount(value: real)

  datatype Portfolio = Portfolio(asset: real, currency: real, balance: BalanceValue)

  /** `currency + price * asset`; an undefined price makes it NaN. */
  function BalanceAt(p: Portfolio, price: Option<real>): (b: BalanceValue)
    ensures b.NotANumber? <==> price.None?
    ensures price.Some? ==> b.Amount? && b.value - p.currency == price.value * p.asset
  {
    if price.None? then NotANumber else Amount(p.currency + price.value * p.asset)
  }

  datatype Candle = Candle(close: real, start: int)
  datatype Advice = Advice(recommendation: string, candle: Candle)

  /** What the paper trader emits; each carries a copy of the portfolio. */
  datatype Event =
    | TradeEvent(action: string, price: real, portfolio: Portfolio, balance: BalanceValue, date: int)
    | PortfolioUpdate(portfolio: Portfolio)

  /** "short" sells, "long" buys, anything else is no trade. */
  function ActionFor(recommendation: string): (a: Option<string>)
    ensures a == Some("sell") <==> recommendation == "short"
    ensures a == Some("buy") <==> recommendation == "long"
    ensures a.None? <==> recommendation != "short" && recommendation != "long"
  {
    if recommendation == "short" then Some("sell")
    else if recommendation == "long" then Some("buy")
    else None
  }

  /** The `trade` event for an advice, if it calls for one. */
  function TradeEventFor(advice: Advice, portfolio: Portfolio, price: Option<real>): (e: Option<Event>)
    ensures e.None? <==> ActionFor(advice.recommendation).None?
    ensures e.Some? ==>
      e.value.TradeEvent? && Some(e.value.action) == ActionFor(advice.recommendation) &&
      e.value.price == advice.candle.close && e.value.date == advice.candle.start &&
      e.value.portfolio == portfolio && e.value.balance == BalanceAt(portfolio, price)
  {
    match ActionFor(advice.recommendation)
    case None => None
    case Some(action) =>
      Some(TradeEvent(action, advice.candle.close, portfolio, BalanceAt(portfolio, price), advice.candle.start))
  }

  /** A long advice at close 100 emits one purchase at 100, dated at the candle's start. */
  lemma LongAdviceExample(p: Portfolio, t: int)
    ensures TradeEventFor(Advice("long", Candle(100.0, t)), p, None)
            == Some(TradeEvent("buy", 100.0, p, NotANumber, t))
  {
  }

  /** Eight decimal places: fees are truncated to multiples of 1 / Scale. */
  const Scale: real := 100000000.0

  /** `x` is a whole number of hundred-millionths. */
  predicate OnGrid(x: real)
  {
    (x * Scale).Floor as real == x * Scale
  }

  /** Truncation to eight places has one answer: the grid point at or just below the value. */
  lemma TruncationIsUnique(x: real, r1: real, r2: real)
    requires OnGrid(r1) && r1 <= x < r1 + 1.0 / Scale
    requires OnGrid(r2) && r2 <= x < r2 + 1.0 / Scale
    ensures r1 == r2
  {
    var k1 := (r1 * Scale).Floor;
    var k2 := (r2 * Scale).Floor;
    assert k1 as real <= x * Scale < k1 as real + 1.0;
    assert k2 as real <= x * Scale < k2 as real + 1.0;
    assert k1 == k2;
  }

  class PaperTrader {
    var fee: Option<real>
    var currency: string
    var asset: string
    var portfolio: Portfolio
    /** The price the balance is computed from; nothing ever sets it. */
    var price: Option<real>
    /** Everything emitted so far, oldest first. */
    var events: seq<Event>

    /** The price stays undefined, so the balance is never a number. */
    ghost predicate Valid()
      reads this
    {
      price.None? && !portfolio.balance.Amount?
    }

    constructor (settings: CalcConfig, watch: WatchConfig)
      ensures Valid()
      ensures fee == FeeFactor(settings) && currency == watch.currency && asset == watch.asset
      ensures portfolio == Portfolio(settings.simulationBalance.asset, settings.simulationBalance.currency, Unset)
      ensures price == None && events == []
    {
      fee := FeeFactor(settings);
      currency := watch.currency;
      asset := watch.asset;
      portfolio := Portfolio(settings.simulationBalance.asset, settings.simulationBalance.currency, Unset);
      price := None;
      events := [];
    }

    /** Emits a `trade` event for a long or short advice; the portfolio is left as it is. */
    method RelayTrade(advice: Advice)
      requires Valid()
      modifies this`events
      ensures Valid()
      ensures ActionFor(advice.recommendation).None? ==> events == old(events)
      ensures ActionFor(advice.recommendation).Some? ==>
        events == old(events) + [TradeEventFor(advice, portfolio, price).value]
      ensures events[|old(events)|..] == [] || events[|old(events)|..][0].balance == NotANumber
    {
      var e := TradeEventFor(advice, portfolio, price);
      if e.Some? {
        events := events + [e.value];
      }
    }

    /** Emits a copy of the portfolio. */
    method RelayPortfolio()
      modifies this`events
      ensures events == old(events) + [PortfolioUpdate(portfolio)]
    {
      events := events + [PortfolioUpdate(portfolio)];
    }

    /**
     * The amount left after the fee, truncated (never rounded up) to eight
     * decimal places; a NaN fee factor gives NaN.
     */
    method ExtractFee(amount: real) returns (r: Option<real>)
      ensures r.None? <==> fee.None?
      ensures r.Some? ==> r.value <= amount * fee.value < r.value + 1.0 / Scale
      ensures r.Some? ==> OnGrid(r.value)
      ensures r.Some? && amount >= 0.0 && fee.value >= 0.0 ==> r.value >= 0.0
    {
      if fee.None? {
        return None;
      }
      var x := amount;
      x := x * Scale;
      x := x * fee.value;
      ghost var exact := x;
      x := x.Floor as real;
      ghost var floored := x;
      x := x / Scale;
      assert x * Scale == floored;
      assert exact == amount * fee.value * Scale;
      return Some(x);
    }

    /** Sets the balance from the portfolio and the price, then emits the portfolio. */
    method SetStartBalance()
      requires Valid()
      modifies this`portfolio, this`events
      ensures Valid()
      ensures portfolio == old(portfolio).(balance := BalanceAt(old(portfolio), price))
      ensures events == old(events) + [PortfolioUpdate(portfolio)]
    {
      portfolio := portfolio.(balance := BalanceAt(portfolio, price));
      RelayPortfolio();
    }
  }

  /** With a fee factor of 0.998, one unit comes back as exactly 0.998 after the fee. */
  lemma ExtractFeeExample(r: real)
    requires OnGrid(r) && r <= 1.0 * 0.998 < r + 1.0 / Scale
    ensures r == 0.998
  {
    assert OnGrid(0.998) by {
      assert 0.998 * Scale == 99800000.0;
    }
    TruncationIsUnique(0.998, r, 0.998);
  }
}
