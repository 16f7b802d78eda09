/** Per-unit profitability of one e-commerce product: six numeric inputs,
    the derived money values, the break-even estimate and the three-way
    verdict. Money is modelled with exact reals. */
module Profitability {

  /** The six values read from the sidebar form. The commission is the
      rate as the user types it, in percent (10.0 means ten percent). */
  datatype Inputs = Inputs(
    sellPrice: real,
    productCost: real,
    shippingCost: real,
    commissionPercent: real,
    advertisingCost: real,
    otherCosts: real)

  /** The form's initial values. */
  const Defaults := Inputs(29990.0, 10000.0, 2000.0, 10.0, 5000.0, 1000.0)

  /** Margin, in percent, below which a non-losing product is only a low-margin one. */
  const LowMarginThreshold: real := 15.0

  /** Break-even estimate: a number of units, or the "not profitable"
      sentinel that the program represents as an infinite float. */
  datatype BreakEven = NotProfitable | Units(units: real)

  /** The advisory shown under the results. */
  datatype Verdict = Loss | LowMargin | Profitable

  /** Everything the calculation derives from one set of inputs. */
  datatype Outcome = Outcome(
    commissionValue: real,
    totalCost: real,
    profit: real,
    margin: real,
    breakEven: BreakEven,
    verdict: Verdict)

  /** Commission charged by the platform: the percent is turned into a
      fraction and applied to the sell price. */
  function CommissionValue(sellPrice: real, commissionPercent: real): (c: real)
    ensures c * 100.0 == sellPrice * commissionPercent
    ensures sellPrice >= 0.0 && 0.0 <= commissionPercent <= 100.0 ==> 0.0 <= c <= sellPrice
  {
    sellPrice * (commissionPercent / 100.0)
  }

  /** Cost of one unit: product, shipping, commission, advertising and other costs. */
  function TotalCost(i: Inputs): (t: real)
    ensures t * 100.0
      == (i.productCost + i.shippingCost + i.advertisingCost + i.otherCosts) * 100.0
         + i.sellPrice * i.commissionPercent
  {
    i.productCost + i.shippingCost + CommissionValue(i.sellPrice, i.commissionPercent)
      + i.advertisingCost + i.otherCosts
  }

  /** Profit as a percentage of the sell price; zero when the price is zero. */
  function Margin(sellPrice: real, profit: real): (m: real)
    ensures sellPrice == 0.0 ==> m == 0.0
    ensures sellPrice != 0.0 ==> m * sellPrice == profit * 100.0
    ensures profit == 0.0 ==> m == 0.0
  {
    if sellPrice != 0.0 then (profit / sellPrice) * 100.0 else 0.0
  }

  /** Units needed before the total cost is covered, or the sentinel when
      one unit brings in nothing over its cost. */
  function BreakEvenUnits(sellPrice: real, totalCost: real): (b: BreakEven)
    ensures b.NotProfitable? <==> sellPrice - totalCost <= 0.0
    ensures b.Units? ==> sellPrice - totalCost > 0.0 && b.units * (sellPrice - totalCost) == totalCost
    ensures b.Units? && totalCost >= 0.0 ==> b.units >= 0.0
  {
    if sellPrice - totalCost > 0.0 then Units(totalCost / (sellPrice - totalCost)) else NotProfitable
  }

  /** The traffic-light verdict: losses first, then the margin threshold. */
  function Classify(profit: real, margin: real): (v: Verdict)
    ensures v == Loss <==> profit < 0.0
    ensures v == LowMargin <==> profit >= 0.0 && margin < LowMarginThreshold
    ensures v == Profitable <==> profit >= 0.0 && margin >= LowMarginThreshold
  {
    if profit < 0.0 then Loss
    else if margin < LowMarginThreshold then LowMargin
    else Profitable
  }

  /** The whole calculation for one set of inputs. */
  function Compute(i: Inputs): (o: Outcome)
    ensures o.commissionValue * 100.0 == i.sellPrice * i.commissionPercent
    ensures o.profit + o.totalCost == i.sellPrice
    ensures i.sellPrice == 0.0 ==> o.margin == 0.0
    ensures i.sellPrice != 0.0 ==> o.margin * i.sellPrice == o.profit * 100.0
    ensures o.breakEven.NotProfitable? <==> o.profit <= 0.0
    ensures o.breakEven.Units? ==> o.breakEven.units * o.profit == o.totalCost
    ensures o.verdict == Loss <==> o.profit < 0.0
    ensures o.verdict == LowMargin <==> o.profit >= 0.0 && o.margin < LowMarginThreshold
    ensures o.verdict == Profitable <==> o.profit >= 0.0 && o.margin >= LowMarginThreshold
    ensures o.verdict == Loss ==> o.breakEven == NotProfitable
  {
    var commission := CommissionValue(i.sellPrice, i.commissionPercent);
    var total := TotalCost(i);
    var profit := i.sellPrice - total;
    var margin := Margin(i.sellPrice, profit);
    Outcome(commission, total, profit, margin, BreakEvenUnits(i.sellPrice, total),
            Classify(profit, margin))
  }

  /** The pie chart's six slices, in the order the program lists them:
      product, shipping, commission, advertising, other costs, profit. */
  function ChartComponents(i: Inputs): (parts: seq<real>)
    ensures |parts| == 6
    ensures parts[0] == i.productCost && parts[1] == i.shippingCost
    ensures parts[2] == Compute(i).commissionValue
    ensures parts[3] == i.advertisingCost && parts[4] == i.otherCosts
    ensures parts[5] == Compute(i).profit
  {
    var o := Compute(i);
    [i.productCost, i.shippingCost, o.commissionValue, i.advertisingCost, i.otherCosts, o.profit]
  }

  function Sum(xs: seq<real>): real
  {
    if xs == [] then 0.0 else xs[0] + Sum(xs[1..])
  }

  /** The cost components and the profit split the sell price exactly. */
  lemma ChartComponentsSumToPrice(i: Inputs)
    ensures Sum(ChartComponents(i)) == i.sellPrice
  {
    var parts := ChartComponents(i);
    assert Sum(parts[5..]) == parts[5];
    assert Sum(parts[4..]) == parts[4] + parts[5];
    assert Sum(parts[3..]) == parts[3] + parts[4] + parts[5];
    assert Sum(parts[2..]) == parts[2] + parts[3] + parts[4] + parts[5];
    assert Sum(parts[1..]) == parts[1] + parts[2] + parts[3] + parts[4] + parts[5];
  }

  /** Total cost in terms of the six inputs alone. */
  lemma TotalCostFromInputs(i: Inputs)
    ensures Compute(i).totalCost * 100.0
      == (i.productCost + i.shippingCost + i.advertisingCost + i.otherCosts) * 100.0
         + i.sellPrice * i.commissionPercent
  {
  }

  /** A zero sell price never divides: the margin is zero and the verdict
      is decided by the sign of the profit alone. */
  lemma ZeroPriceNeverProfitable(i: Inputs)
    requires i.sellPrice == 0.0
    ensures Compute(i).margin == 0.0
    ensures Compute(i).verdict == (if Compute(i).profit < 0.0 then Loss else LowMargin)
  {
  }

  /** A profitable verdict means a positive price, a positive profit and a
      numeric break-even estimate. */
  lemma ProfitableIsSound(i: Inputs)
    requires Compute(i).verdict == Profitable
    ensures Compute(i).profit > 0.0 && i.sellPrice > 0.0
    ensures Compute(i).breakEven.Units?
  {
    var o := Compute(i);
    assert o.profit != 0.0;
    PositiveRatioHasPositiveBase(o.margin, i.sellPrice, o.profit * 100.0);
  }

  /** If m * p == q with m and q positive, then p is positive too. */
  lemma PositiveRatioHasPositiveBase(m: real, p: real, q: real)
    requires m > 0.0 && q > 0.0 && m * p == q
    ensures p > 0.0
  {
  }

  /** For a positive p with m * p == q, m reaches a threshold t exactly
      when q reaches t * p. */
  lemma ScaledThreshold(m: real, p: real, q: real, t: real)
    requires p > 0.0 && m * p == q
    ensures m >= t <==> q >= t * p
  {
    assert q - t * p == (m - t) * p;
  }

  /** For a positive sell price, the verdict read off the profit alone:
      profitable exactly when the profit reaches fifteen percent of the price. */
  lemma VerdictByPrice(i: Inputs)
    requires i.sellPrice > 0.0
    ensures Compute(i).verdict == Profitable
        <==> Compute(i).profit * 100.0 >= LowMarginThreshold * i.sellPrice
    ensures Compute(i).verdict == LowMargin
        <==> 0.0 <= Compute(i).profit && Compute(i).profit * 100.0 < LowMarginThreshold * i.sellPrice
  {
    var o := Compute(i);
    ScaledThreshold(o.margin, i.sellPrice, o.profit * 100.0, LowMarginThreshold);
  }

  /** The form's initial values: a profitable product (margin near 29.98
      percent) that breaks even after 20999 / 8991 units. */
  lemma DefaultsAreProfitable()
    ensures Compute(Defaults).commissionValue == 2999.0
    ensures Compute(Defaults).totalCost == 20999.0
    ensures Compute(Defaults).profit == 8991.0
    ensures Compute(Defaults).verdict == Profitable
    ensures Compute(Defaults).breakEven == Units(20999.0 / 8991.0)
  {
  }

  /** Costs above the price: a loss, and no break-even estimate. */
  lemma LossExample()
    ensures Compute(Inputs(10000.0, 8000.0, 2000.0, 10.0, 3000.0, 1000.0)).totalCost == 15000.0
    ensures Compute(Inputs(10000.0, 8000.0, 2000.0, 10.0, 3000.0, 1000.0)).verdict == Loss
    ensures Compute(Inputs(10000.0, 8000.0, 2000.0, 10.0, 3000.0, 1000.0)).breakEven == NotProfitable
  {
  }

  /** A 63 percent margin: profitable, breaking even after 18500 / 31500 units. */
  lemma ProfitableExample()
    ensures Compute(Inputs(50000.0, 10000.0, 2000.0, 5.0, 3000.0, 1000.0)).margin == 63.0
    ensures Compute(Inputs(50000.0, 10000.0, 2000.0, 5.0, 3000.0, 1000.0)).verdict == Profitable
    ensures Compute(Inputs(50000.0, 10000.0, 2000.0, 5.0, 3000.0, 1000.0)).breakEven == Units(18500.0 / 31500.0)
  {
  }
}
