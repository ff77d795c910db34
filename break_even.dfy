/**
 The break-even calculation of the simulator: the sidebar inputs, the derived
 effective price, unit margin and total fixed costs, and the guarded division
 that yields the number of units needed to recover the fixed costs.

 Money and quantities are idealised as mathematical reals; the program itself
 works on floating-point numbers.
 */
module BreakEven {

  /** The values read from the sidebar. The discount is entered as a percentage. */
  datatype Inputs = Inputs(
    startupCost: real,
    monthlyOverheads: real,
    unitPrice: real,
    varCost: real,
    monthlySalesTarget: int,
    discountPercent: real,
    marketingSpend: real)

  /** The sidebar's initial values. */
  const DefaultInputs := Inputs(20000.0, 5000.0, 150.0, 50.0, 100, 0.0, 1500.0)

  /** Either the three metrics shown after a run, or the error branch taken
      when the unit margin is zero or negative. */
  datatype Outcome =
    | Ok(beUnits: real, margin: real, fixedCosts: real)
    | MarginNotPositive

  /** The percentage typed by the user as a fraction of one. */
  function DiscountFraction(percent: real): (d: real)
    ensures d * 100.0 == percent
    ensures 0.0 <= percent <= 100.0 ==> 0.0 <= d <= 1.0
  {
    percent / 100.0
  }

  /** The list price reduced by the discount fraction. */
  function EffectivePrice(unitPrice: real, discount: real): (p: real)
    ensures discount == 0.0 ==> p == unitPrice
  {
    unitPrice * (1.0 - discount)
  }

  /** What each sold unit contributes towards the fixed costs. */
  function UnitMargin(effectivePrice: real, varCost: real): (m: real)
    ensures m > 0.0 <==> effectivePrice > varCost
    ensures varCost >= 0.0 ==> m <= effectivePrice
  {
    effectivePrice - varCost
  }

  /** The one-time startup cost together with one month of overheads and
      marketing: all three are recovered by the break-even volume. */
  function TotalFixedCosts(startupCost: real, monthlyOverheads: real, marketingSpend: real): (f: real)
    ensures f - startupCost == monthlyOverheads + marketingSpend
    ensures startupCost >= 0.0 && monthlyOverheads >= 0.0 && marketingSpend >= 0.0 ==>
      f >= startupCost && f >= monthlyOverheads && f >= marketingSpend
  {
    startupCost + monthlyOverheads + marketingSpend
  }

  function Discount(inp: Inputs): real {
    DiscountFraction(inp.discountPercent)
  }

  function Price(inp: Inputs): real {
    EffectivePrice(inp.unitPrice, Discount(inp))
  }

  function Margin(inp: Inputs): real {
    UnitMargin(Price(inp), inp.varCost)
  }

  function FixedCosts(inp: Inputs): real {
    TotalFixedCosts(inp.startupCost, inp.monthlyOverheads, inp.marketingSpend)
  }

  /** One run of the simulation: break-even units exist exactly when the
      margin is strictly positive, and then they recover the fixed costs. */
  function Calculate(inp: Inputs): (r: Outcome)
    ensures r.Ok? <==> Price(inp) > inp.varCost
    ensures r.Ok? ==> r.margin > 0.0 && r.margin == Margin(inp) && r.fixedCosts == FixedCosts(inp)
    ensures r.Ok? ==> r.beUnits * r.margin == r.fixedCosts
  {
    var margin := Margin(inp);
    var fixedCosts := FixedCosts(inp);
    if margin > 0.0 then
      Ok(fixedCosts / margin, margin, fixedCosts)
    else
      MarginNotPositive
  }

  /** Multiplying by a positive factor keeps strict order. */
  lemma ScalingKeepsOrder(a: real, b: real, k: real)
    requires k > 0.0 && a < b
    ensures a * k < b * k && k * a < k * b
  {
    assert (b - a) * k > 0.0;
  }

  /** A positive factor has at most one multiple equal to a given total. */
  lemma SolutionIsUnique(a: real, b: real, k: real, total: real)
    requires k > 0.0 && b * k == total
    ensures a * k == total <==> a == b
  {
    if a < b {
      ScalingKeepsOrder(a, b, k);
    } else if b < a {
      ScalingKeepsOrder(b, a, k);
    }
  }

  /** The break-even volume is the only number of units whose total margin
      equals the fixed costs. */
  lemma BreakEvenIsUnique(inp: Inputs, units: real)
    requires Calculate(inp).Ok?
    ensures units * Margin(inp) == FixedCosts(inp) <==> units == Calculate(inp).beUnits
  {
    SolutionIsUnique(units, Calculate(inp).beUnits, Margin(inp), FixedCosts(inp));
  }

  /** With non-negative fixed-cost inputs the break-even volume is never negative. */
  lemma BreakEvenNonNegative(inp: Inputs)
    requires Calculate(inp).Ok?
    requires inp.startupCost >= 0.0 && inp.monthlyOverheads >= 0.0 && inp.marketingSpend >= 0.0
    ensures Calculate(inp).beUnits >= 0.0
  {
    var r := Calculate(inp);
    if r.beUnits < 0.0 {
      assert r.beUnits * r.margin < 0.0;
    }
  }

  /** With positive fixed costs, dividing them by a smaller positive margin
      needs strictly more units. */
  lemma SmallerMarginNeedsMoreUnits(fixedCosts: real, small: real, large: real)
    requires fixedCosts > 0.0 && 0.0 < small < large
    ensures fixedCosts / large < fixedCosts / small
  {
    var a, b := fixedCosts / large, fixedCosts / small;
    assert a * large == fixedCosts && b * small == fixedCosts;
    if b <= a {
      assert b * large <= a * large;
      assert b * small < b * large;
    }
  }

  /** Raising the variable cost per unit, while the margin stays positive,
      strictly raises the break-even volume. */
  lemma HigherVarCostRaisesBreakEven(inp: Inputs, varCost: real)
    requires inp.varCost < varCost
    requires Calculate(inp.(varCost := varCost)).Ok?
    requires FixedCosts(inp) > 0.0
    ensures Calculate(inp).Ok?
    ensures Calculate(inp).beUnits < Calculate(inp.(varCost := varCost)).beUnits
  {
    var raised := inp.(varCost := varCost);
    assert Margin(raised) < Margin(inp);
    SmallerMarginNeedsMoreUnits(FixedCosts(inp), Margin(raised), Margin(inp));
  }

  /** A discount between none and all of the price leaves an effective
      price between zero and the list price. */
  lemma DiscountedPriceBounds(unitPrice: real, discount: real)
    requires unitPrice >= 0.0 && 0.0 <= discount <= 1.0
    ensures 0.0 <= EffectivePrice(unitPrice, discount) <= unitPrice
  {
    assert EffectivePrice(unitPrice, discount) == unitPrice - unitPrice * discount;
    assert unitPrice * discount <= unitPrice * 1.0;
  }

  /** On a positive list price, a larger discount fraction gives a strictly
      lower effective price. */
  lemma DeeperDiscountLowersPrice(unitPrice: real, shallow: real, deep: real)
    requires unitPrice > 0.0 && shallow < deep
    ensures EffectivePrice(unitPrice, deep) < EffectivePrice(unitPrice, shallow)
  {
    calc {
      EffectivePrice(unitPrice, deep);
    ==
      unitPrice - unitPrice * deep;
    < { ScalingKeepsOrder(shallow, deep, unitPrice); }
      unitPrice - unitPrice * shallow;
    ==
      EffectivePrice(unitPrice, shallow);
    }
  }

  /** Raising the discount on a positive list price, while the margin stays
      positive, strictly raises the break-even volume. */
  lemma HigherDiscountRaisesBreakEven(inp: Inputs, discountPercent: real)
    requires inp.unitPrice > 0.0
    requires inp.discountPercent < discountPercent
    requires Calculate(inp.(discountPercent := discountPercent)).Ok?
    requires FixedCosts(inp) > 0.0
    ensures Calculate(inp).Ok?
    ensures Calculate(inp).beUnits < Calculate(inp.(discountPercent := discountPercent)).beUnits
  {
    var raised := inp.(discountPercent := discountPercent);
    DeeperDiscountLowersPrice(inp.unitPrice, Discount(inp), Discount(raised));
    assert Margin(raised) < Margin(inp);
    SmallerMarginNeedsMoreUnits(FixedCosts(inp), Margin(raised), Margin(inp));
  }

  /** With the sidebar's initial values: margin 100, fixed costs 26500 and
      therefore 265 break-even units. */
  lemma DefaultRun()
    ensures Calculate(DefaultInputs) == Ok(265.0, 100.0, 26500.0)
  {
    assert Margin(DefaultInputs) == 100.0;
  }
}
