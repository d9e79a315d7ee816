# Long straddle / strangle backtest — verified model

This project models the simplified long-volatility backtest of
`test_alpaca_backtest_gemini6.py`:

- `backtest_long_volatility` walks a daily close series.
- At every index that has a close `days_to_expiration` rows later, it buys a
  synthetic long straddle or long strangle. Strikes are rounded to a multiple
  of 5, and premiums are fixed fractions of the entry price.
- It sizes the position from a per-trade budget, settles it at the later
  close, and adds the profit to a running capital.
- The result is the trade ledger and the final capital.

The command-line strategy selector that turns the user's answer into the
`use_strangle` flag is modelled as well.

Prices and money are exact reals. Python's `round` is modelled as
round-half-to-even. Sizing a trade (test_alpaca_backtest_gemini6.py:70) raises when the cost of
a pair is zero: the float floor division gives `inf` or `nan`, and `int()`
of that quotient raises. The model returns this as an explicit outcome
(`DivisionByZero`) at the first entry where it happens.

Modules:

- `PyRound` (`rounding.dfy`): `round(x)` and the multiple-of-five strike grid.
- `Pricing` (`pricing.dfy`): run parameters, strikes, premiums, sizing and the
  payoff of each leg.
- `PricingFacts` (`pricing_facts.dfy`): the properties of those rules.
- `Backtest` (`backtest.dfy`): the ledger datatypes, the reference definition
  `Run`, the imperative loop `BacktestLongVolatility` proved equal to it, and
  the properties of a run.
- `StrategyChoice` (`strategy_choice.dfy`): the `straddle` / `strangle`
  selector.

## Model

| member | source | states |
|---|---|---|
| PyRound.RoundHalfEven | test_alpaca_backtest_gemini6.py:54 | `round(x)` is within one half of x, and an exact half goes to the even integer |
| PyRound.RoundHalfEvenNearest | test_alpaca_backtest_gemini6.py:54 | no integer is closer to x than `round(x)` |
| PyRound.RoundToFive | test_alpaca_backtest_gemini6.py:54 | `round(x / 5) * 5` is a multiple of 5 within 2.5 of x |
| PyRound.RoundToFiveMonotone | test_alpaca_backtest_gemini6.py:54-61 | rounding to the strike grid preserves order |
| Pricing.CallStrike | test_alpaca_backtest_gemini6.py:54-64 | the call strike is always a multiple of 5 |
| Pricing.PutStrike | test_alpaca_backtest_gemini6.py:54-64 | the put strike is always a multiple of 5 |
| Pricing.Contracts | test_alpaca_backtest_gemini6.py:70 | `max(1, budget // pair_cost)` buys at least one contract |
| Pricing.Max0 | test_alpaca_backtest_gemini6.py:76-77 | `max(0, x)` is non-negative, at least x, and equal to 0 or to x |
| PricingFacts.AtmStrikeExamples | test_alpaca_backtest_gemini6.py:54 | ATM strikes of 101, 112.5 and 117.5 are 100, 110 and 120 (ties go to the even quotient) |
| PricingFacts.StraddleStrikesMeet | test_alpaca_backtest_gemini6.py:62-64 | a straddle buys both legs at the ATM strike |
| PricingFacts.StrangleStrikesNear | test_alpaca_backtest_gemini6.py:59-61 | each strangle strike is within 2.5 of the entry price moved up (call) or down (put) by the OTM offset |
| PricingFacts.StrangleStrikesOrdered | test_alpaca_backtest_gemini6.py:59-61 | with a non-negative price and offset, the strangle's put strike is never above its call strike |
| PricingFacts.PremiumsAlike | test_alpaca_backtest_gemini6.py:67-68 | the call and put premiums per share are equal: 2% of the price times (1 + ATM offset) for a straddle, 1.5% times (1 + OTM offset) for a strangle |
| PricingFacts.SizableIff | test_alpaca_backtest_gemini6.py:67-70 | sizing divides by zero exactly when the entry price is 0 or the selected mode's offset is -1 |
| PricingFacts.PairCostPositive | test_alpaca_backtest_gemini6.py:67-70 | a positive entry price and an offset above -1 in the selected mode give a positive pair cost |
| PricingFacts.ContractsFitBudget | test_alpaca_backtest_gemini6.py:70 | with a positive pair cost, the contract count is the largest whole number of pairs the budget pays for, or 1 when the budget does not cover one pair |
| PricingFacts.LegLossBounded | test_alpaca_backtest_gemini6.py:76-77 | a long leg loses at most its premium, and exactly its premium when it expires out of the money |
| PricingFacts.LegProfitMonotone | test_alpaca_backtest_gemini6.py:76-77 | the call's profit rises with the expiration price and the put's falls |
| PricingFacts.StraddlePayoff | test_alpaca_backtest_gemini6.py:76-79 | at one strike the two legs together pay (distance between S and K − 2 × premium) × 100 × contracts |
| Backtest.MakeTradeWellFormed | test_alpaca_backtest_gemini6.py:50-97 | every ledger row has at least one contract, strikes on the 5-grid (equal for a straddle), equal premiums paid, legs that lose at most their premium, total = call + put, and the strategy label; a strangle with non-negative price and offset has put strike ≤ call strike |
| Backtest.FirstUnsizable | test_alpaca_backtest_gemini6.py:49-70 | finds the first entry index whose sizing divides by zero, or the entry count if there is none |
| Backtest.FirstUnsizableIs | test_alpaca_backtest_gemini6.py:49-70 | the first failing entry is unique |
| Backtest.BacktestLongVolatility | test_alpaca_backtest_gemini6.py:35-99 | the loop returns exactly `Run`: no data or an empty series gives `([], initial_capital)`; otherwise the first unsizable entry raises; otherwise the result is the ledger of every entry and the capital after the last |
| Backtest.OpenAndSettle | test_alpaca_backtest_gemini6.py:50-97 | one loop iteration raises exactly when the pair cost is zero, and otherwise builds the ledger row `MakeTrade` describes |
| Backtest.LedgerLength | test_alpaca_backtest_gemini6.py:49-82 | the ledger of k entries has k rows |
| Backtest.LedgerAt | test_alpaca_backtest_gemini6.py:49-97 | row j is the trade opened at index j and settled at index j + days_to_expiration, on the capital reached after the first j trades |
| Backtest.ShortSeriesNoTrades | test_alpaca_backtest_gemini6.py:42-49 | no data, or a series no longer than the holding period, gives no trades and the initial capital |
| Backtest.TradeCount | test_alpaca_backtest_gemini6.py:49 | a completed run has `max(0, len - days_to_expiration)` trades |
| Backtest.TradeFollowsSeries | test_alpaca_backtest_gemini6.py:50-97 | trade j of a completed run enters at bar j, expires at bar j + days_to_expiration, and is a well-formed row |
| Backtest.TradeSizedToBudget | test_alpaca_backtest_gemini6.py:67-70 | each trade of a completed run entered at a positive price (offset above -1) holds the largest number of pairs capital_per_trade pays for, or one pair when the budget does not cover one |
| Backtest.CapitalChain | test_alpaca_backtest_gemini6.py:47-94 | each trade's capital is the previous trade's capital (the initial capital for the first) plus its own total profit |
| Backtest.LedgerProfitSum | test_alpaca_backtest_gemini6.py:79-81 | the total profits of the ledger sum to the capital gained |
| Backtest.FinalCapital | test_alpaca_backtest_gemini6.py:47-99 | the returned capital is the last trade's capital (or the initial capital if there are none) and exceeds the initial capital by the sum of the total profits |
| Backtest.RaisesIff | test_alpaca_backtest_gemini6.py:49-70 | a run raises if and only if some entry is unsizable, and then at the first such entry |
| Backtest.FlatSeriesScenario | test_alpaca_backtest_gemini6.py:35-99 | 31 closes of 100 with the defaults give one straddle of 6 contracts at strike 100 that loses 2424, leaving 7576 |
| StrategyChoice.SelectStrategy | test_alpaca_backtest_gemini6.py:133-137 | the strangle flag is set exactly for the answer `strangle`, and a warning is given exactly for an answer other than `straddle` or `strangle` |
| StrategyChoice.WarningMeansStraddle | test_alpaca_backtest_gemini6.py:133-137 | a warned answer falls back to the straddle; no warning is given exactly for the two recognised words |

## Left out

- Configuration loading and `exit()` (test_alpaca_backtest_gemini6.py:9-19), and the Alpaca download `load_historical_data_alpaca` (:22-32). These are I/O. The series is a parameter, and a failed download is `None`.
- `export_to_excel` (:102-118), the prompts, `.upper()`/`.lower()` on the answers, and every `print`. These are I/O and console text. The selector takes the answer already lower-cased.
- `app.py` is not part of this model. It is a separate web front end.
- Floating point: prices, premiums and profits are exact reals. IEEE-754 rounding of the products and sums, `inf`/`nan`, and the float-to-int conversion of a huge quotient are not modelled. A tie in `round` is a tie in the reals, so a value that is not exactly representable in binary may round differently in Python.
- Dates are copied from the series as `Date(year, month, day)`. `.date()` and `strftime('%Y-%m-%d')` are not modelled.
- `days_to_expiration` is a natural number. A negative value would make Python index from the end of the series and then raise `IndexError`.
- `total_cost` (:71) is computed but never used, so it is not modelled.
- The `- (0 if i == 0 else 0)` term (:79) is kept in the model. It always subtracts zero.
- A zero pair cost at :70 ends the Python call with an exception: numpy floor division by 0.0 gives `inf` or `nan` (with a RuntimeWarning), and `int()` of it raises `OverflowError` or `ValueError`. The model returns `DivisionByZero(i)` instead, and the partial ledger is not returned.
- The trade record is a datatype with the source's fields, not a dictionary of strings.
- PricingFacts.StrangleStrikesOrdered: stated only for a non-negative price and offset. With a negative offset the strikes can cross.
