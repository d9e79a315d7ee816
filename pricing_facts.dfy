/** Properties of the pricing rules: where the strikes fall, that the two
    legs are priced alike, when sizing can divide by zero, how many contracts
    a budget buys, and what each leg can gain or lose. */
module PricingFacts {
  import opened PyRound
  import opened Pricing

  /** Strikes round half to even: 101 gives 100, and the ties 112.5 and
      117.5 both go to the even multiple of five, 110 and 120. */
  lemma AtmStrikeExamples()
    ensures AtmStrike(101.0) == 100
    ensures AtmStrike(112.5) == 110
    ensures AtmStrike(117.5) == 120
  {
    RoundHalfEvenUnique(101.0 / 5.0, 20);
    RoundHalfEvenUnique(112.5 / 5.0, 22);
    RoundHalfEvenUnique(117.5 / 5.0, 24);
  }

  /** A straddle buys both legs at the at-the-money strike. */
  lemma StraddleStrikesMeet(price: real, p: Params)
    requires !p.useStrangle
    ensures CallStrike(price, p) == PutStrike(price, p) == AtmStrike(price)
  {
  }

  /** A strangle's strikes lie within 2.5 of the entry price moved up (call)
      or down (put) by the offset. */
  lemma StrangleStrikesNear(price: real, p: Params)
    requires p.useStrangle
    ensures Raised(price, p.otmOffset) - 2.5 <= CallStrike(price, p) as real <= Raised(price, p.otmOffset) + 2.5
    ensures Lowered(price, p.otmOffset) - 2.5 <= PutStrike(price, p) as real <= Lowered(price, p.otmOffset) + 2.5
  {
  }

  /** A strangle with a non-negative offset on a non-negative price never
      puts the put strike above the call strike, since rounding is monotone. */
  lemma StrangleStrikesOrdered(price: real, p: Params)
    requires p.useStrangle && price >= 0.0 && p.otmOffset >= 0.0
    ensures PutStrike(price, p) <= CallStrike(price, p)
  {
    LoweredBelowRaised(price, p.otmOffset);
    RoundToFiveMonotone(Lowered(price, p.otmOffset), Raised(price, p.otmOffset));
  }

  lemma LoweredBelowRaised(price: real, offset: real)
    requires price >= 0.0 && offset >= 0.0
    ensures Lowered(price, offset) <= Raised(price, offset)
  {
    assert price * offset >= 0.0;
  }

  /** The two legs are always priced alike, by the straddle or the strangle
      rule. */
  lemma PremiumsAlike(price: real, p: Params)
    ensures CallPremiumPerShare(price, p) == PutPremiumPerShare(price, p)
    ensures !p.useStrangle ==> CallPremiumPerShare(price, p) == 0.02 * price * (1.0 + p.atmOffset)
    ensures p.useStrangle ==> CallPremiumPerShare(price, p) == 0.015 * price * (1.0 + p.otmOffset)
  {
  }

  /** Sizing fails exactly for a zero entry price or an offset of -100%
      in the selected mode. */
  lemma SizableIff(price: real, p: Params)
    ensures Sizable(price, p) <==> price != 0.0 && (if p.useStrangle then p.otmOffset != -1.0 else p.atmOffset != -1.0)
  {
    var off := if p.useStrangle then p.otmOffset else p.atmOffset;
    var rate := if p.useStrangle then 0.015 else 0.02;
    assert PairCost(price, p) == 200.0 * rate * (price * (1.0 + off));
    if price != 0.0 && off != -1.0 {
      assert price * (1.0 + off) != 0.0;
    }
  }

  /** A positive entry price and an offset above -100% in the selected mode
      give a positive cost per pair, so ContractsFitBudget applies. */
  lemma PairCostPositive(price: real, p: Params)
    requires price > 0.0
    requires if p.useStrangle then p.otmOffset > -1.0 else p.atmOffset > -1.0
    ensures PairCost(price, p) > 0.0
  {
    var off := if p.useStrangle then p.otmOffset else p.atmOffset;
    var rate := if p.useStrangle then 0.015 else 0.02;
    assert PairCost(price, p) == 200.0 * rate * (price * (1.0 + off));
    assert price * (1.0 + off) > 0.0 by {
      MultiplyPreservesStrictOrder(0.0, 1.0 + off, price);
    }
  }

  /** With a positive cost per pair, Contracts buys the largest number of
      pairs the budget pays for, and a single pair when the budget does not
      cover even one. */
  lemma ContractsFitBudget(budget: real, pairCost: real)
    requires pairCost > 0.0
    ensures budget >= pairCost ==>
      (Contracts(budget, pairCost) as real) * pairCost <= budget
      < ((Contracts(budget, pairCost) + 1) as real) * pairCost
    ensures budget < pairCost ==> Contracts(budget, pairCost) == 1
  {
    QuotientFloorBounds(budget, pairCost);
  }

  lemma QuotientFloorBounds(a: real, c: real)
    requires c > 0.0
    ensures ((a / c).Floor as real) * c <= a < (((a / c).Floor + 1) as real) * c
  {
    var q := a / c;
    var f := q.Floor as real;
    assert f <= q < f + 1.0;
    assert q * c == a;
    MultiplyMonotone(f, q, c);
    var g := f + 1.0;
    MultiplyPreservesStrictOrder(q, g, c);
    assert q * c < g * c;
    assert ((a / c).Floor + 1) as real == g;
    assert a < g * c;
  }

  lemma MultiplyPreservesStrictOrder(x: real, y: real, c: real)
    requires x < y && c > 0.0
    ensures x * c < y * c
  {
  }

  /** A long option can lose at most its premium: with a non-negative number
      of contracts each leg's profit is at least minus the premium paid, and
      exactly that when the leg expires out of the money. */
  lemma LegLossBounded(strike: int, s: real, premiumPerShare: real, contracts: int)
    requires contracts >= 0
    ensures CallProfit(strike, s, premiumPerShare, contracts) >= -(premiumPerShare * 100.0 * contracts as real)
    ensures PutProfit(strike, s, premiumPerShare, contracts) >= -(premiumPerShare * 100.0 * contracts as real)
    ensures s <= strike as real ==> CallProfit(strike, s, premiumPerShare, contracts) == -(premiumPerShare * 100.0 * contracts as real)
    ensures s >= strike as real ==> PutProfit(strike, s, premiumPerShare, contracts) == -(premiumPerShare * 100.0 * contracts as real)
  {
    var n := contracts as real;
    assert Max0(s - strike as real) * 100.0 * n >= 0.0 by {
      NonNegativeProduct(Max0(s - strike as real) * 100.0, n);
    }
    assert Max0(strike as real - s) * 100.0 * n >= 0.0 by {
      NonNegativeProduct(Max0(strike as real - s) * 100.0, n);
    }
  }

  lemma NonNegativeProduct(a: real, b: real)
    requires a >= 0.0 && b >= 0.0
    ensures a * b >= 0.0
  {
  }

  /** With a non-negative number of contracts the call pays more the higher
      the underlying expires, and the put the lower. */
  lemma LegProfitMonotone(strike: int, s1: real, s2: real, premiumPerShare: real, contracts: int)
    requires s1 <= s2 && contracts >= 0
    ensures CallProfit(strike, s1, premiumPerShare, contracts) <= CallProfit(strike, s2, premiumPerShare, contracts)
    ensures PutProfit(strike, s2, premiumPerShare, contracts) <= PutProfit(strike, s1, premiumPerShare, contracts)
  {
    var n := contracts as real * 100.0;
    assert Max0(s1 - strike as real) <= Max0(s2 - strike as real);
    assert Max0(strike as real - s2) <= Max0(strike as real - s1);
    MultiplyMonotone(Max0(s1 - strike as real), Max0(s2 - strike as real), n);
    MultiplyMonotone(Max0(strike as real - s2), Max0(strike as real - s1), n);
    assert Max0(s1 - strike as real) * 100.0 * contracts as real == Max0(s1 - strike as real) * n;
    assert Max0(s2 - strike as real) * 100.0 * contracts as real == Max0(s2 - strike as real) * n;
    assert Max0(strike as real - s1) * 100.0 * contracts as real == Max0(strike as real - s1) * n;
    assert Max0(strike as real - s2) * 100.0 * contracts as real == Max0(strike as real - s2) * n;
  }

  lemma MultiplyMonotone(x: real, y: real, c: real)
    requires x <= y && c >= 0.0
    ensures x * c <= y * c
  {
  }

  /** At one strike K the two legs together pay |S - K| per share: a
      straddle gains exactly when the underlying moves away from the strike
      by more than the two premiums. */
  lemma StraddlePayoff(strike: int, s: real, premiumPerShare: real, contracts: int)
    ensures CallProfit(strike, s, premiumPerShare, contracts) + PutProfit(strike, s, premiumPerShare, contracts)
         == (Distance(s, strike as real) - 2.0 * premiumPerShare) * 100.0 * contracts as real
  {
    var n := 100.0 * contracts as real;
    assert Max0(s - strike as real) + Max0(strike as real - s) == Distance(s, strike as real);
    assert Max0(s - strike as real) * 100.0 * contracts as real == Max0(s - strike as real) * n;
    assert Max0(strike as real - s) * 100.0 * contracts as real == Max0(strike as real - s) * n;
    assert premiumPerShare * 100.0 * contracts as real == premiumPerShare * n;
    assert (Distance(s, strike as real) - 2.0 * premiumPerShare) * 100.0 * contracts as real
        == (Distance(s, strike as real) - 2.0 * premiumPerShare) * n;
    Distribute(Max0(s - strike as real), Max0(strike as real - s), premiumPerShare, n);
  }

  lemma Distribute(a: real, b: real, q: real, n: real)
    ensures a * n - q * n + (b * n - q * n) == (a + b - 2.0 * q) * n
  {
  }
}
