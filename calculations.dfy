/** Yield arithmetic of lib/pearls/calculations.ts over the constants of
    lib/pearls/config.ts. JavaScript numbers are modelled as reals. */
module Calculations {
  import opened Config
  import opened Sums

  function Min(a: real, b: real): real {
    if a <= b then a else b
  }

  /** calculateAPR: the base APR plus 0.5 per booster, capped at the maximum. */
  function CalculateApr(boosterCount: real): (apr: real)
    ensures apr <= MaxApr
    ensures boosterCount >= 0.0 ==> BaseApr <= apr
    ensures boosterCount >= MaxBoosters as real ==> apr == MaxApr
    ensures boosterCount <= MaxBoosters as real ==> apr == BaseApr + boosterCount * BoostPerNft
  {
    var boost := Min(boosterCount * BoostPerNft, MaxApr - BaseApr);
    BaseApr + boost
  }

  /** More boosters never lower the APR. */
  lemma AprMonotone(fewer: real, more: real)
    requires fewer <= more
    ensures CalculateApr(fewer) <= CalculateApr(more)
  {
  }

  /** calculateBreakEven: the share of the new money spent that has been earned
      back, as a percentage capped at 100; nothing spent counts as broken even. */
  function CalculateBreakEven(totalNewMoneySpent: real, totalEarned: real): (pct: real)
    ensures totalNewMoneySpent <= 0.0 ==> pct == 100.0
    ensures pct <= 100.0
    ensures totalNewMoneySpent > 0.0 && totalEarned >= 0.0 ==> 0.0 <= pct
    ensures totalNewMoneySpent > 0.0 && totalEarned < totalNewMoneySpent ==>
      pct * totalNewMoneySpent == totalEarned * 100.0
    ensures totalNewMoneySpent > 0.0 && totalEarned >= totalNewMoneySpent ==> pct == 100.0
  {
    if totalNewMoneySpent <= 0.0 then 100.0
    else
      var ratio := totalEarned / totalNewMoneySpent;
      RatioFacts(totalEarned, totalNewMoneySpent);
      var pct := ratio * 100.0;
      Min(pct, 100.0)
  }

  lemma RatioFacts(earned: real, spent: real)
    requires spent > 0.0
    ensures (earned / spent) * spent == earned
    ensures earned >= spent ==> earned / spent >= 1.0
    ensures earned < spent ==> earned / spent < 1.0
    ensures earned >= 0.0 ==> earned / spent >= 0.0
  {
    var inv := DivideByInverse(earned, spent);
    assert spent * inv == 1.0;
    if earned >= spent {
      MulMono(spent, earned, inv);
    } else {
      MulStrict(earned, spent, inv);
    }
    if earned >= 0.0 {
      MulMono(0.0, earned, inv);
    }
  }

  /** Division by a positive amount is multiplication by its positive inverse. */
  lemma DivideByInverse(x: real, d: real) returns (inv: real)
    requires d > 0.0
    ensures inv == 1.0 / d && inv > 0.0 && x / d == x * inv
  {
    inv := 1.0 / d;
  }

  /** For a fixed positive spend, earning more never lowers the break-even percentage. */
  lemma BreakEvenMonotone(spent: real, earnedLess: real, earnedMore: real)
    requires spent > 0.0 && earnedLess <= earnedMore
    ensures CalculateBreakEven(spent, earnedLess) <= CalculateBreakEven(spent, earnedMore)
  {
    var inv := DivideByInverse(earnedLess, spent);
    var inv' := DivideByInverse(earnedMore, spent);
    MulMono(earnedLess, earnedMore, inv);
    var a, b := earnedLess / spent, earnedMore / spent;
    assert a <= b;
    assert CalculateBreakEven(spent, earnedLess) == Min(a * 100.0, 100.0);
    assert CalculateBreakEven(spent, earnedMore) == Min(b * 100.0, 100.0);
  }

  lemma MulStrict(x: real, y: real, c: real)
    requires x < y && c > 0.0
    ensures x * c < y * c
  {
  }

  lemma MulMono(x: real, y: real, c: real)
    requires x <= y && c >= 0.0
    ensures x * c <= y * c
  {
  }

  /** calculateMonthlyPayout. */
  function CalculateMonthlyPayout(holdingsValueUsd: real, apr: real): (monthly: real)
    ensures monthly * 1200.0 == holdingsValueUsd * apr
  {
    (holdingsValueUsd * (apr / 100.0)) / 12.0
  }

  /** calculateYearlyNoCompound. */
  function CalculateYearlyNoCompound(monthlyPayout: real): real {
    monthlyPayout * 12.0
  }

  /** Twelve uncompounded months pay apr percent of the holdings. */
  lemma YearlyOfMonthly(holdingsValueUsd: real, apr: real)
    ensures CalculateYearlyNoCompound(CalculateMonthlyPayout(holdingsValueUsd, apr)) * 100.0
            == holdingsValueUsd * apr
  {
  }

  // ---------------------------------------------------------------------------
  // calculateYearlyMaxCompound
  // ---------------------------------------------------------------------------

  /** The cheapest pearl in USD: 10 POL on Polygon or 0.00075 ETH on Base. */
  function MinPearlCostUsd(polPriceUsd: real, ethPriceUsd: real): real {
    Min(MinPearlAmountPolygon * polPriceUsd, MinPearlAmountBase * ethPriceUsd)
  }

  /** The three variables the month loop updates. */
  datatype Projection = Projection(totalEarned: real, holdingsValue: real, carryover: real)

  /** One month: take the payout, buy as many whole pearls as payout plus
      carryover allows, carry the rest, and add the pearls to the holdings. */
  function MonthStep(p: Projection, apr: real, cost: real): Projection
    requires cost > 0.0
  {
    var monthPayout := CalculateMonthlyPayout(p.holdingsValue, apr);
    var available := monthPayout + p.carryover;
    var spent := WholePearlSpend(available, cost);
    Projection(p.totalEarned + monthPayout, p.holdingsValue + spent, available - spent)
  }

  /** The USD spent on as many whole pearls as `available` buys. */
  function WholePearlSpend(available: real, cost: real): real
    requires cost > 0.0
  {
    (available / cost).Floor as real * cost
  }

  /** The state after `months` months, starting from nothing earned and no carryover. */
  function Project(holdings: real, apr: real, cost: real, months: nat): Projection
    requires cost > 0.0
  {
    if months == 0 then Projection(0.0, holdings, 0.0)
    else MonthStep(Project(holdings, apr, cost, months - 1), apr, cost)
  }

  /** What calculateYearlyMaxCompound returns. */
  function YearlyMaxCompound(monthlyPayoutUsd: real, currentHoldingsValueUsd: real, apr: real,
                             polPriceUsd: real, ethPriceUsd: real): real
  {
    var cost := MinPearlCostUsd(polPriceUsd, ethPriceUsd);
    if cost <= 0.0 then monthlyPayoutUsd * 12.0
    else Project(currentHoldingsValueUsd, apr, cost, 12).totalEarned
  }

  /** calculateYearlyMaxCompound: the 12-month loop. */
  method CalculateYearlyMaxCompound(monthlyPayoutUsd: real, currentHoldingsValueUsd: real, apr: real,
                                    polPriceUsd: real, ethPriceUsd: real) returns (total: real)
    ensures total == YearlyMaxCompound(monthlyPayoutUsd, currentHoldingsValueUsd, apr, polPriceUsd, ethPriceUsd)
  {
    var minPearlCostPolygonUsd := MinPearlAmountPolygon * polPriceUsd;
    var minPearlCostBaseUsd := MinPearlAmountBase * ethPriceUsd;
    var minPearlCostUsd := Min(minPearlCostPolygonUsd, minPearlCostBaseUsd);
    if minPearlCostUsd <= 0.0 {
      return monthlyPayoutUsd * 12.0;
    }
    var totalEarned := 0.0;
    var holdingsValue := currentHoldingsValueUsd;
    var carryover := 0.0;
    for month := 0 to 12
      invariant Projection(totalEarned, holdingsValue, carryover)
                == Project(currentHoldingsValueUsd, apr, minPearlCostUsd, month)
    {
      ghost var before := Projection(totalEarned, holdingsValue, carryover);
      var monthPayout := (holdingsValue * (apr / 100.0)) / 12.0;
      totalEarned := totalEarned + monthPayout;
      var available := monthPayout + carryover;
      var pearlsToBuy := (available / minPearlCostUsd).Floor;
      var spent := pearlsToBuy as real * minPearlCostUsd;
      assert monthPayout == CalculateMonthlyPayout(before.holdingsValue, apr);
      assert spent == WholePearlSpend(available, minPearlCostUsd);
      carryover := available - spent;
      holdingsValue := holdingsValue + spent;
      assert Projection(totalEarned, holdingsValue, carryover) == MonthStep(before, apr, minPearlCostUsd);
    }
    total := totalEarned;
  }

  /** The monthlyPayout argument is used only in the fallback for a non-positive
      pearl cost; otherwise the result does not depend on it. */
  lemma MonthlyPayoutOnlyInFallback(m1: real, m2: real, holdings: real, apr: real, pol: real, eth: real)
    ensures MinPearlCostUsd(pol, eth) <= 0.0 ==> YearlyMaxCompound(m1, holdings, apr, pol, eth) == m1 * 12.0
    ensures MinPearlCostUsd(pol, eth) > 0.0 ==>
      YearlyMaxCompound(m1, holdings, apr, pol, eth) == YearlyMaxCompound(m2, holdings, apr, pol, eth)
  {
  }

  /** One month keeps the loop's invariants: what is spent is whole pearls and
      at most what is available, the carryover stays in [0, cost), holdings never
      decrease, and the month earns at least the payout on the holdings it started with. */
  lemma MonthStepInvariant(p: Projection, apr: real, cost: real)
    requires cost > 0.0 && apr >= 0.0 && p.holdingsValue >= 0.0
    requires 0.0 <= p.carryover < cost
    ensures var q := MonthStep(p, apr, cost);
      var available := CalculateMonthlyPayout(p.holdingsValue, apr) + p.carryover;
      var spent := q.holdingsValue - p.holdingsValue;
      && 0.0 <= spent <= available
      && spent == WholePearlSpend(available, cost)
      && 0.0 <= q.carryover < cost
      && q.holdingsValue >= p.holdingsValue
      && q.totalEarned == p.totalEarned + CalculateMonthlyPayout(p.holdingsValue, apr)
  {
    MonthlyPayoutMonotone(0.0, p.holdingsValue, apr);
    WholePearls(CalculateMonthlyPayout(p.holdingsValue, apr) + p.carryover, cost);
  }

  /** Spending whole pearls out of a non-negative amount: the spend is at most the
      amount and what is left is less than one pearl. */
  lemma WholePearls(available: real, cost: real)
    requires available >= 0.0 && cost > 0.0
    ensures var spent := WholePearlSpend(available, cost);
      0.0 <= spent <= available && 0.0 <= available - spent < cost
  {
    var x := available / cost;
    Remainder(available, cost, x, x.Floor as real);
  }

  lemma Remainder(available: real, cost: real, x: real, f: real)
    requires cost > 0.0 && x * cost == available && 0.0 <= f <= x < f + 1.0
    ensures 0.0 <= f * cost <= available && 0.0 <= available - f * cost < cost
  {
    MulMono(0.0, f, cost);
    MulMono(f, x, cost);
    MulStrict(x, f + 1.0, cost);
    AddOneTimes(f, cost);
    assert x * cost < f * cost + cost;
    calc {
      available - f * cost;
      x * cost - f * cost;
      < cost;
    }
  }

  /** After n months from non-negative holdings with non-negative APR and a positive
      pearl cost, holdings have not fallen and the carryover lies in [0, cost). */
  lemma {:induction false} ProjectBounds(holdings: real, apr: real, cost: real, n: nat)
    requires holdings >= 0.0 && apr >= 0.0 && cost > 0.0
    ensures var p := Project(holdings, apr, cost, n);
      && p.holdingsValue >= holdings
      && 0.0 <= p.carryover < cost
  {
    if n > 0 {
      ProjectBounds(holdings, apr, cost, n - 1);
      var p := Project(holdings, apr, cost, n - 1);
      MonthStepInvariant(p, apr, cost);
    }
  }

  /** ... and at least n uncompounded monthly payouts have been earned. */
  lemma ProjectEarned(holdings: real, apr: real, cost: real, n: nat)
    requires holdings >= 0.0 && apr >= 0.0 && cost > 0.0
    ensures Project(holdings, apr, cost, n).totalEarned >= n as real * CalculateMonthlyPayout(holdings, apr)
  {
    ProjectEarnedSum(holdings, apr, cost, n);
    TimesIsProduct(n, CalculateMonthlyPayout(holdings, apr));
  }

  /** The same bound as a sum of n monthly payouts: each month's payout is at
      least the first month's, since holdings never shrink. */
  lemma {:induction false} ProjectEarnedSum(holdings: real, apr: real, cost: real, n: nat)
    requires holdings >= 0.0 && apr >= 0.0 && cost > 0.0
    ensures Project(holdings, apr, cost, n).totalEarned >= Times(n, CalculateMonthlyPayout(holdings, apr))
  {
    if n > 0 {
      ProjectEarnedSum(holdings, apr, cost, n - 1);
      ProjectBounds(holdings, apr, cost, n - 1);
      var p := Project(holdings, apr, cost, n - 1);
      MonthlyPayoutMonotone(holdings, p.holdingsValue, apr);
      assert Project(holdings, apr, cost, n).totalEarned == p.totalEarned + CalculateMonthlyPayout(p.holdingsValue, apr);
    }
  }

  lemma MonthlyPayoutMonotone(less: real, more: real, apr: real)
    requires less <= more && apr >= 0.0
    ensures CalculateMonthlyPayout(less, apr) <= CalculateMonthlyPayout(more, apr)
  {
    MulMono(less, more, apr);
  }

  /** Compounding never earns less over a year than not compounding. */
  lemma CompoundingBeatsSimple(monthlyPayoutUsd: real, holdings: real, apr: real, pol: real, eth: real)
    requires holdings >= 0.0 && apr >= 0.0 && MinPearlCostUsd(pol, eth) > 0.0
    ensures YearlyMaxCompound(monthlyPayoutUsd, holdings, apr, pol, eth)
            >= CalculateYearlyNoCompound(CalculateMonthlyPayout(holdings, apr))
  {
    ProjectEarned(holdings, apr, MinPearlCostUsd(pol, eth), 12);
  }
}
