/** The per-entry formulas of the long-volatility backtest: synthetic
    strikes, synthetic premiums, position sizing and the payoff of each leg
    at expiration. Prices and money are exact reals; strikes and contract
    counts are integers. Their properties are proved in PricingFacts. */
module Pricing {
  import opened PyRound

  /** The parameters of one backtest run, in the order of the keyword
      arguments of backtest_long_volatility. */
  datatype Params = Params(
    initialCapital: real,
    capitalPerTrade: real,
    daysToExpiration: nat,
    atmOffset: real,
    otmOffset: real,
    useStrangle: bool)

  /** The keyword defaults of backtest_long_volatility (the CLI passes the
      same values explicitly). */
  function DefaultParams(useStrangle: bool): Params
  {
    Params(10000.0, 2500.0, 30, 0.01, 0.05, useStrangle)
  }

  /** The at-the-money strike: the entry price rounded to a multiple of 5. */
  function AtmStrike(price: real): int
  {
    RoundToFive(price)
  }

  /** The call strike: at the money for a straddle, the entry price raised by
      the strangle offset and rounded to a multiple of 5 for a strangle. */
  function CallStrike(price: real, p: Params): (k: int)
    ensures k % 5 == 0
  {
    if p.useStrangle then RoundToFive(Raised(price, p.otmOffset)) else AtmStrike(price)
  }

  /** The put strike: at the money for a straddle, the entry price lowered by
      the strangle offset and rounded to a multiple of 5 for a strangle. */
  function PutStrike(price: real, p: Params): (k: int)
    ensures k % 5 == 0
  {
    if p.useStrangle then RoundToFive(Lowered(price, p.otmOffset)) else AtmStrike(price)
  }

  /** The price moved up by a fraction. */
  function Raised(price: real, offset: real): real
  {
    price * (1.0 + offset)
  }

  /** The price moved down by a fraction. */
  function Lowered(price: real, offset: real): real
  {
    price * (1.0 - offset)
  }

  /** Premium per share of the call: 2% of the entry price inflated by the
      ATM offset for a straddle, 1.5% inflated by the OTM offset for a
      strangle. */
  function CallPremiumPerShare(price: real, p: Params): real
  {
    if !p.useStrangle then 0.02 * price * (1.0 + p.atmOffset) else 0.015 * price * (1.0 + p.otmOffset)
  }

  /** Premium per share of the put, by the same rule as the call. */
  function PutPremiumPerShare(price: real, p: Params): real
  {
    if !p.useStrangle then 0.02 * price * (1.0 + p.atmOffset) else 0.015 * price * (1.0 + p.otmOffset)
  }

  /** The cost of one contract of each leg (100 shares per contract). */
  function PairCost(price: real, p: Params): real
  {
    (CallPremiumPerShare(price, p) + PutPremiumPerShare(price, p)) * 100.0
  }

  /** Sizing divides by PairCost; the source raises when it is zero. */
  predicate Sizable(price: real, p: Params)
  {
    PairCost(price, p) != 0.0
  }

  /** max(1, capital_per_trade // pair_cost): the number of contracts of
      each leg bought. */
  function Contracts(budget: real, pairCost: real): (n: int)
    requires pairCost != 0.0
    ensures n >= 1
  {
    var q := (budget / pairCost).Floor;
    if q > 1 then q else 1
  }

  /** max(0, x) */
  function Max0(x: real): (m: real)
    ensures m >= 0.0 && m >= x && (m == 0.0 || m == x)
  {
    if x > 0.0 then x else 0.0
  }

  /** Profit of the call leg at expiration: the intrinsic value
      max(0, S - K) on 100 shares per contract, less the premium paid. */
  function CallProfit(strike: int, priceAtExpiration: real, premiumPerShare: real, contracts: int): real
  {
    Max0(priceAtExpiration - strike as real) * 100.0 * contracts as real - premiumPerShare * 100.0 * contracts as real
  }

  /** Profit of the put leg at expiration: the intrinsic value
      max(0, K - S) on 100 shares per contract, less the premium paid. */
  function PutProfit(strike: int, priceAtExpiration: real, premiumPerShare: real, contracts: int): real
  {
    Max0(strike as real - priceAtExpiration) * 100.0 * contracts as real - premiumPerShare * 100.0 * contracts as real
  }
}
