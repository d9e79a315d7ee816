/** backtest_long_volatility: the rolling long straddle / strangle backtest
    over a series of daily closes. Every index that has a close
    days_to_expiration positions later opens a synthetic position there,
    settles it at that later close, and adds its profit to a running capital.
    Positions overlap: an entry is made at every index. */
module Backtest {
  import opened PyRound
  import opened Pricing
  import opened PricingFacts

  datatype Option<T> = None | Some(value: T)

  /** A calendar date; the backtest only copies dates from the series. */
  datatype Date = Date(year: int, month: int, day: int)

  /** One row of the price series: a trading day and its close. */
  datatype Bar = Bar(date: Date, close: real)

  /** One ledger row, with the fields in the order the source writes them. */
  datatype Trade = Trade(
    entryDate: Date,
    expirationDate: Date,
    priceAtEntry: real,
    callStrike: int,
    putStrike: int,
    callPremiumPaid: real,
    putPremiumPaid: real,
    priceAtExpiration: real,
    callProfit: real,
    putProfit: real,
    totalProfit: real,
    capital: real,
    strategy: string,
    numContracts: int)

  /** What a call returns: the ledger and the final capital, or the
      exception the sizing division raises at the given entry index. */
  datatype Outcome =
    | Completed(trades: seq<Trade>, capital: real)
    | DivisionByZero(entry: nat)

  function StrategyLabel(useStrangle: bool): string
  {
    if useStrangle then "Long Strangle" else "Long Straddle"
  }

  /** len(range(len - days_to_expiration)): the number of entries. */
  function EntryCount(len: nat, daysToExpiration: nat): nat
  {
    if len > daysToExpiration then len - daysToExpiration else 0
  }

  /** The properties every ledger row has, whatever the prices. */
  predicate WellFormed(t: Trade, useStrangle: bool)
  {
    && t.numContracts >= 1
    && t.callStrike % 5 == 0
    && t.putStrike % 5 == 0
    && (!useStrangle ==> t.callStrike == t.putStrike)
    && t.callPremiumPaid == t.putPremiumPaid
    && t.callProfit >= -t.callPremiumPaid
    && t.putProfit >= -t.putPremiumPaid
    && t.totalProfit == t.callProfit + t.putProfit
    && t.strategy == StrategyLabel(useStrangle)
  }

  /** total_profit of the position opened at entry index i. */
  function EntryProfit(entry: real, expiry: real, i: nat, p: Params): real
    requires Sizable(entry, p)
  {
    var n := Contracts(p.capitalPerTrade, PairCost(entry, p));
    CallProfit(CallStrike(entry, p), expiry, CallPremiumPerShare(entry, p), n)
      + PutProfit(PutStrike(entry, p), expiry, PutPremiumPerShare(entry, p), n)
      - (if i == 0 then 0.0 else 0.0)
  }

  /** The ledger row for entry index i, opened at `entry`, settled at
      `expiry`, with `capitalBefore` the running capital before it. */
  function MakeTrade(entry: Bar, expiry: Bar, i: nat, p: Params, capitalBefore: real): Trade
    requires Sizable(entry.close, p)
  {
    var price := entry.close;
    var n := Contracts(p.capitalPerTrade, PairCost(price, p));
    var callPremium := CallPremiumPerShare(price, p);
    var putPremium := PutPremiumPerShare(price, p);
    var callStrike := CallStrike(price, p);
    var putStrike := PutStrike(price, p);
    var total := EntryProfit(price, expiry.close, i, p);
    Trade(entry.date, expiry.date, price, callStrike, putStrike,
          callPremium * 100.0 * n as real, putPremium * 100.0 * n as real,
          expiry.close,
          CallProfit(callStrike, expiry.close, callPremium, n),
          PutProfit(putStrike, expiry.close, putPremium, n),
          total, capitalBefore + total,
          StrategyLabel(p.useStrangle), n)
  }

  /** Every ledger row is WellFormed, and a strangle on a non-negative price
      with a non-negative offset has its put strike at or below its call
      strike. */
  lemma MakeTradeWellFormed(entry: Bar, expiry: Bar, i: nat, p: Params, capitalBefore: real)
    requires Sizable(entry.close, p)
    ensures WellFormed(MakeTrade(entry, expiry, i, p, capitalBefore), p.useStrangle)
    ensures var t := MakeTrade(entry, expiry, i, p, capitalBefore);
      p.useStrangle && entry.close >= 0.0 && p.otmOffset >= 0.0 ==> t.putStrike <= t.callStrike
  {
    var t := MakeTrade(entry, expiry, i, p, capitalBefore);
    var price, s := entry.close, expiry.close;
    var n := Contracts(p.capitalPerTrade, PairCost(price, p));
    var cs, ps := CallStrike(price, p), PutStrike(price, p);
    var cp, pp := CallPremiumPerShare(price, p), PutPremiumPerShare(price, p);
    assert t.callStrike == cs && t.putStrike == ps && t.numContracts == n;
    assert t.callPremiumPaid == cp * 100.0 * n as real && t.putPremiumPaid == pp * 100.0 * n as real;
    assert t.callProfit == CallProfit(cs, s, cp, n) && t.putProfit == PutProfit(ps, s, pp, n);
    assert t.totalProfit == t.callProfit + t.putProfit;
    PremiumsAlike(price, p);
    LegLossBounded(cs, s, cp, n);
    LegLossBounded(ps, s, pp, n);
    if p.useStrangle && price >= 0.0 && p.otmOffset >= 0.0 {
      StrangleStrikesOrdered(price, p);
    }
  }

  /** No entry before index k fails to size. */
  predicate SizableUpTo(bars: seq<Bar>, p: Params, k: nat)
  {
    k <= |bars| && forall j :: 0 <= j < k ==> Sizable(bars[j].close, p)
  }

  /** The first entry index below k whose sizing divides by zero, or k. */
  function FirstUnsizable(bars: seq<Bar>, p: Params, k: nat): (f: nat)
    requires k <= |bars|
    ensures f <= k
    ensures SizableUpTo(bars, p, f)
    ensures f < k ==> !Sizable(bars[f].close, p)
  {
    if k == 0 then 0
    else
      var f := FirstUnsizable(bars, p, k - 1);
      if f < k - 1 then f
      else if Sizable(bars[k - 1].close, p) then k
      else k - 1
  }

  /** The reference value of the running capital after the first k entries:
      the initial capital plus the profits of those entries. */
  function CapitalAfter(bars: seq<Bar>, p: Params, k: nat): real
    requires k <= EntryCount(|bars|, p.daysToExpiration)
    requires SizableUpTo(bars, p, k)
  {
    if k == 0 then p.initialCapital
    else CapitalAfter(bars, p, k - 1)
           + EntryProfit(bars[k - 1].close, bars[k - 1 + p.daysToExpiration].close, k - 1, p)
  }

  /** The ledger of the first k entries, each row carrying the capital
      reached after it. */
  function Ledger(bars: seq<Bar>, p: Params, k: nat): seq<Trade>
    requires k <= EntryCount(|bars|, p.daysToExpiration)
    requires SizableUpTo(bars, p, k)
  {
    if k == 0 then []
    else Ledger(bars, p, k - 1)
           + [MakeTrade(bars[k - 1], bars[k - 1 + p.daysToExpiration], k - 1, p, CapitalAfter(bars, p, k - 1))]
  }

  /** The reference definition of a backtest: no data gives no trades and
      the initial capital; otherwise the first entry whose sizing divides by
      zero raises, and if none does, the ledger of every entry and the
      capital after the last. */
  function Run(data: Option<seq<Bar>>, p: Params): Outcome
  {
    match data
    case None => Completed([], p.initialCapital)
    case Some(bars) =>
      if |bars| == 0 then Completed([], p.initialCapital)
      else
        var n := EntryCount(|bars|, p.daysToExpiration);
        var f := FirstUnsizable(bars, p, n);
        if f < n then DivisionByZero(f)
        else Completed(Ledger(bars, p, n), CapitalAfter(bars, p, n))
  }

  /** backtest_long_volatility: one pass over the entry indices, updating
      the running capital and appending a ledger row at each. */
  method BacktestLongVolatility(data: Option<seq<Bar>>, p: Params) returns (r: Outcome)
    ensures r == Run(data, p)
  {
    if data.None? || |data.value| == 0 {
      return Completed([], p.initialCapital);
    }
    var bars := data.value;
    var dte := p.daysToExpiration;
    var trades: seq<Trade> := [];
    var capital := p.initialCapital;
    var i := 0;
    while i < |bars| - dte
      invariant i <= EntryCount(|bars|, dte)
      invariant SizableUpTo(bars, p, i)
      invariant trades == Ledger(bars, p, i)
      invariant capital == CapitalAfter(bars, p, i)
    {
      var settled := OpenAndSettle(bars[i], bars[i + dte], i, p, capital);
      if settled.None? {
        // capital_per_trade // 0 raises: the run ends without a result.
        FirstUnsizableIs(bars, p, EntryCount(|bars|, dte), i);
        return DivisionByZero(i);
      }
      var trade := settled.value;
      capital := capital + trade.totalProfit;
      trades := trades + [trade];
      i := i + 1;
    }
    FirstUnsizableIs(bars, p, i, i);
    return Completed(trades, capital);
  }

  /** One iteration of the loop of backtest_long_volatility: strikes,
      premiums, sizing, the close at expiration and the two payoffs, built
      into a ledger row whose capital is `capitalBefore` plus its profit;
      None where the sizing division raises. */
  method OpenAndSettle(entry: Bar, expiry: Bar, i: nat, p: Params, capitalBefore: real) returns (r: Option<Trade>)
    ensures r.None? <==> !Sizable(entry.close, p)
    ensures r.Some? ==> r.value == MakeTrade(entry, expiry, i, p, capitalBefore)
  {
    var entryDate := entry.date;
    var entryPrice := entry.close;

    var callStrike := CallStrike(entryPrice, p);
    var putStrike := PutStrike(entryPrice, p);

    var premiumCall := CallPremiumPerShare(entryPrice, p);
    var premiumPut := PutPremiumPerShare(entryPrice, p);

    var pairCost := (premiumCall + premiumPut) * 100.0;
    if pairCost == 0.0 {
      return None;
    }
    var numContracts := Contracts(p.capitalPerTrade, pairCost);

    var expirationDate := expiry.date;
    var priceAtExpiration := expiry.close;

    var callProfit := CallProfit(callStrike, priceAtExpiration, premiumCall, numContracts);
    var putProfit := PutProfit(putStrike, priceAtExpiration, premiumPut, numContracts);
    var totalProfit := callProfit + putProfit - (if i == 0 then 0.0 else 0.0);

    var capital := capitalBefore + totalProfit;
    r := Some(Trade(entryDate, expirationDate, entryPrice, callStrike, putStrike,
                    premiumCall * 100.0 * numContracts as real,
                    premiumPut * 100.0 * numContracts as real,
                    priceAtExpiration, callProfit, putProfit, totalProfit, capital,
                    StrategyLabel(p.useStrangle), numContracts));
  }

  /** FirstUnsizable finds exactly the first failing index. */
  lemma FirstUnsizableIs(bars: seq<Bar>, p: Params, k: nat, f: nat)
    requires k <= |bars| && f <= k
    requires SizableUpTo(bars, p, f)
    requires f < k ==> !Sizable(bars[f].close, p)
    ensures FirstUnsizable(bars, p, k) == f
  {
  }

  /** The ledger of k entries has k rows. */
  lemma {:induction false} LedgerLength(bars: seq<Bar>, p: Params, k: nat)
    requires k <= EntryCount(|bars|, p.daysToExpiration)
    requires SizableUpTo(bars, p, k)
    ensures |Ledger(bars, p, k)| == k
  {
    if k > 0 {
      LedgerLength(bars, p, k - 1);
    }
  }

  /** Row j of the ledger is the trade opened at index j and settled
      days_to_expiration positions later, on the capital reached before it. */
  lemma {:induction false} LedgerAt(bars: seq<Bar>, p: Params, k: nat, j: nat)
    requires k <= EntryCount(|bars|, p.daysToExpiration)
    requires SizableUpTo(bars, p, k)
    requires j < k
    ensures |Ledger(bars, p, k)| == k
    ensures Ledger(bars, p, k)[j]
         == MakeTrade(bars[j], bars[j + p.daysToExpiration], j, p, CapitalAfter(bars, p, j))
  {
    LedgerLength(bars, p, k);
    if j < k - 1 {
      LedgerAt(bars, p, k - 1, j);
      LedgerLength(bars, p, k - 1);
    }
  }

  /** A series too short for one holding period, or no series at all, gives
      no trades and leaves the capital at its initial value. */
  lemma ShortSeriesNoTrades(data: Option<seq<Bar>>, p: Params)
    requires data.None? || |data.value| <= p.daysToExpiration
    ensures Run(data, p) == Completed([], p.initialCapital)
  {
  }

  /** A completed run has one trade per entry index: max(0, len - dte). */
  lemma TradeCount(bars: seq<Bar>, p: Params)
    requires Run(Some(bars), p).Completed?
    ensures |Run(Some(bars), p).trades| == EntryCount(|bars|, p.daysToExpiration)
  {
    if |bars| > 0 {
      var n := EntryCount(|bars|, p.daysToExpiration);
      LedgerLength(bars, p, n);
    }
  }

  /** Trade j of a completed run enters at index j and expires at index
      j + days_to_expiration, and has every property of a ledger row. */
  lemma TradeFollowsSeries(bars: seq<Bar>, p: Params, j: nat)
    requires Run(Some(bars), p).Completed?
    requires j < |Run(Some(bars), p).trades|
    ensures j + p.daysToExpiration < |bars|
    ensures Run(Some(bars), p).trades[j].entryDate == bars[j].date
    ensures Run(Some(bars), p).trades[j].priceAtEntry == bars[j].close
    ensures Run(Some(bars), p).trades[j].expirationDate == bars[j + p.daysToExpiration].date
    ensures Run(Some(bars), p).trades[j].priceAtExpiration == bars[j + p.daysToExpiration].close
    ensures Run(Some(bars), p).trades[j]
         == MakeTrade(bars[j], bars[j + p.daysToExpiration], j, p, CapitalAfter(bars, p, j))
    ensures WellFormed(Run(Some(bars), p).trades[j], p.useStrangle)
  {
    TradeCount(bars, p);
    LedgerAt(bars, p, EntryCount(|bars|, p.daysToExpiration), j);
    MakeTradeWellFormed(bars[j], bars[j + p.daysToExpiration], j, p, CapitalAfter(bars, p, j));
  }

  /** Trade j of a completed run, entered at a positive price with an offset
      above -100%, holds the largest number of pairs capital_per_trade pays
      for, or a single pair when the budget does not cover one. */
  lemma TradeSizedToBudget(bars: seq<Bar>, p: Params, j: nat)
    requires Run(Some(bars), p).Completed?
    requires j < |Run(Some(bars), p).trades|
    requires j < |bars| && bars[j].close > 0.0
    requires if p.useStrangle then p.otmOffset > -1.0 else p.atmOffset > -1.0
    ensures SizedToBudget(Run(Some(bars), p).trades[j].numContracts, p.capitalPerTrade, PairCost(bars[j].close, p))
  {
    TradeFollowsSeries(bars, p, j);
    RowSizedToBudget(bars[j], bars[j + p.daysToExpiration], j, p, CapitalAfter(bars, p, j));
  }

  /** n pairs at `cost` each is what `budget` buys: as many as it pays for,
      and one when it does not cover a single pair. */
  predicate SizedToBudget(n: int, budget: real, cost: real)
  {
    && (budget >= cost ==> (n as real) * cost <= budget < ((n + 1) as real) * cost)
    && (budget < cost ==> n == 1)
  }

  lemma RowSizedToBudget(entry: Bar, expiry: Bar, i: nat, p: Params, capitalBefore: real)
    requires entry.close > 0.0
    requires if p.useStrangle then p.otmOffset > -1.0 else p.atmOffset > -1.0
    ensures Sizable(entry.close, p)
    ensures SizedToBudget(MakeTrade(entry, expiry, i, p, capitalBefore).numContracts, p.capitalPerTrade, PairCost(entry.close, p))
  {
    var cost := PairCost(entry.close, p);
    PairCostPositive(entry.close, p);
    assert MakeTrade(entry, expiry, i, p, capitalBefore).numContracts == Contracts(p.capitalPerTrade, cost);
    ContractsFitBudget(p.capitalPerTrade, cost);
  }

  /** The capital chain: each trade's capital is the previous trade's (the
      initial capital for the first) plus its own total profit. */
  lemma CapitalChain(bars: seq<Bar>, p: Params, j: nat)
    requires Run(Some(bars), p).Completed?
    requires j < |Run(Some(bars), p).trades|
    ensures var ts := Run(Some(bars), p).trades;
      ts[j].capital == (if j == 0 then p.initialCapital else ts[j - 1].capital) + ts[j].totalProfit
  {
    var n := EntryCount(|bars|, p.daysToExpiration);
    TradeCount(bars, p);
    LedgerAt(bars, p, n, j);
    if j > 0 {
      LedgerAt(bars, p, n, j - 1);
    }
  }

  /** Sum of the total_profit column of a ledger. */
  function SumTotalProfit(ts: seq<Trade>): real
  {
    if ts == [] then 0.0 else SumTotalProfit(ts[..|ts| - 1]) + ts[|ts| - 1].totalProfit
  }

  lemma {:induction false} LedgerProfitSum(bars: seq<Bar>, p: Params, k: nat)
    requires k <= EntryCount(|bars|, p.daysToExpiration)
    requires SizableUpTo(bars, p, k)
    ensures SumTotalProfit(Ledger(bars, p, k)) == CapitalAfter(bars, p, k) - p.initialCapital
  {
    if k > 0 {
      LedgerProfitSum(bars, p, k - 1);
      var ts := Ledger(bars, p, k);
      LedgerLength(bars, p, k);
      assert ts[..|ts| - 1] == Ledger(bars, p, k - 1);
    }
  }

  /** The returned capital is the last trade's capital (the initial capital
      when there are none), and exceeds the initial capital by the sum of
      all total profits: the "Total Profit" the caller reports. */
  lemma FinalCapital(data: Option<seq<Bar>>, p: Params)
    requires Run(data, p).Completed?
    ensures var r := Run(data, p);
      r.capital == (if r.trades == [] then p.initialCapital else r.trades[|r.trades| - 1].capital)
    ensures var r := Run(data, p);
      r.capital - p.initialCapital == SumTotalProfit(r.trades)
  {
    if data.Some? && |data.value| > 0 {
      var bars := data.value;
      var n := EntryCount(|bars|, p.daysToExpiration);
      LedgerLength(bars, p, n);
      LedgerProfitSum(bars, p, n);
      if n > 0 {
        LedgerAt(bars, p, n, n - 1);
      }
    }
  }

  /** A run raises exactly when some entry cannot be sized, and then at the
      first such entry. */
  lemma RaisesIff(bars: seq<Bar>, p: Params)
    ensures Run(Some(bars), p).DivisionByZero? <==>
      exists j :: 0 <= j < EntryCount(|bars|, p.daysToExpiration) && !Sizable(bars[j].close, p)
    ensures Run(Some(bars), p).DivisionByZero? ==>
      var f := Run(Some(bars), p).entry;
      f < EntryCount(|bars|, p.daysToExpiration) && !Sizable(bars[f].close, p) && SizableUpTo(bars, p, f)
  {
    var n := EntryCount(|bars|, p.daysToExpiration);
    var f := FirstUnsizable(bars, p, n);
    if f == n {
      assert SizableUpTo(bars, p, n);
    }
  }

  /** The flat-series scenario: 31 equal closes of 100, a 30-day holding
      period and the default straddle buy one trade of six contracts at
      strike 100, pay 2.02 per share per leg, and lose both premiums. */
  lemma FlatSeriesScenario(bars: seq<Bar>)
    requires |bars| == 31
    requires forall j :: 0 <= j < 31 ==> bars[j].close == 100.0
    ensures var r := Run(Some(bars), DefaultParams(false));
      && r.Completed?
      && |r.trades| == 1
      && r.trades[0].callStrike == 100 && r.trades[0].putStrike == 100
      && r.trades[0].numContracts == 6
      && r.trades[0].callProfit == -1212.0 && r.trades[0].putProfit == -1212.0
      && r.trades[0].totalProfit == -2424.0
      && r.capital == 7576.0
  {
    var p := DefaultParams(false);
    assert Sizable(bars[0].close, p);
    assert FirstUnsizable(bars, p, 1) == 1;
    assert RoundHalfEven(100.0 / 5.0) == 20 by {
      RoundHalfEvenOfInteger(20);
    }
    assert PairCost(100.0, p) == 404.0;
    assert Contracts(2500.0, 404.0) == 6;
    LedgerLength(bars, p, 1);
    var t := MakeTrade(bars[0], bars[30], 0, p, p.initialCapital);
    assert Ledger(bars, p, 1) == [t];
    assert t.callProfit == -1212.0 && t.putProfit == -1212.0;
  }
}
