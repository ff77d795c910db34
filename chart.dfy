/**
 The data behind the break-even chart: the upper end of the units axis, the
 one hundred evenly spaced sample points on it, the revenue and total-cost
 curves over those points and the vertical marker at the break-even volume.
 Only the numbers are modelled; drawing them is not.
 */
module BreakEvenChart {
  import opened BreakEven

  /** Number of points sampled along the units axis. */
  const SampleCount: nat := 100

  /** Conversion of a real to an integer by dropping its fractional part,
      rounding toward zero for negative as well as positive values. */
  function Trunc(r: real): (t: int)
    ensures r >= 0.0 ==> 0 <= t && t as real <= r < t as real + 1.0
    ensures r < 0.0 ==> t <= 0 && t as real - 1.0 < r <= t as real
  {
    if r >= 0.0 then r.Floor else -((-r).Floor)
  }

  /** The larger of two values; the first one when they are equal. */
  function Max(a: real, b: real): (m: real)
    ensures m >= a && m >= b
    ensures m == a || m == b
  {
    if b > a then b else a
  }

  /** The upper end of the units axis: half again the larger of the
      break-even volume and the monthly sales target, truncated. */
  function ChartBound(beUnits: real, target: int): (maxX: int)
    ensures var m := Max(beUnits * 1.5, target as real * 1.5);
      m >= 0.0 ==> 0 <= maxX && m - 1.0 < maxX as real <= m
    ensures var m := Max(beUnits * 1.5, target as real * 1.5);
      m < 0.0 ==> maxX <= 0 && m <= maxX as real < m + 1.0
  {
    Trunc(Max(beUnits * 1.5, target as real * 1.5))
  }

  /** `num` evenly spaced points from `start` to `stop`, both included. */
  function Linspace(start: real, stop: real, num: nat): (xs: seq<real>)
    ensures |xs| == num
    ensures num >= 1 ==> xs[0] == start
    ensures num >= 2 ==> xs[num - 1] == stop
    ensures num >= 2 ==> forall i :: 0 < i < num ==> xs[i] - xs[i - 1] == (stop - start) / (num - 1) as real
  {
    if num <= 1 then
      seq(num, _ => start)
    else
      var step := (stop - start) / (num - 1) as real;
      assert (num - 1) as real * step == stop - start;
      seq(num, i => start + i as real * step)
  }

  /** Income from selling `x` units at the effective price. */
  function Revenue(x: real, price: real): real {
    x * price
  }

  /** Fixed costs plus the variable cost of `x` units. */
  function TotalCost(x: real, fixedCosts: real, varCost: real): real {
    fixedCosts + x * varCost
  }

  function RevenueCurve(xs: seq<real>, price: real): (ys: seq<real>)
    ensures |ys| == |xs|
    ensures forall i :: 0 <= i < |xs| ==> ys[i] == Revenue(xs[i], price)
  {
    seq(|xs|, i requires 0 <= i < |xs| => Revenue(xs[i], price))
  }

  function CostCurve(xs: seq<real>, fixedCosts: real, varCost: real): (ys: seq<real>)
    ensures |ys| == |xs|
    ensures forall i :: 0 <= i < |xs| ==> ys[i] == TotalCost(xs[i], fixedCosts, varCost)
  {
    seq(|xs|, i requires 0 <= i < |xs| => TotalCost(xs[i], fixedCosts, varCost))
  }

  /** The plotted series: sample points, the two curves and the marker. */
  datatype Chart = Chart(maxX: int, xs: seq<real>, revenue: seq<real>, costs: seq<real>, marker: real)

  /** The chart drawn after a successful run with break-even volume `beUnits`. */
  function Plot(inp: Inputs, beUnits: real): (c: Chart)
    ensures c.maxX == ChartBound(beUnits, inp.monthlySalesTarget) && c.marker == beUnits
    ensures |c.xs| == SampleCount && |c.revenue| == SampleCount && |c.costs| == SampleCount
    ensures c.xs[0] == 0.0 && c.xs[SampleCount - 1] == c.maxX as real
    ensures forall i :: 0 <= i < SampleCount ==>
      c.revenue[i] == Revenue(c.xs[i], Price(inp)) &&
      c.costs[i] == TotalCost(c.xs[i], FixedCosts(inp), inp.varCost)
  {
    var maxX := ChartBound(beUnits, inp.monthlySalesTarget);
    var xs := Linspace(0.0, maxX as real, SampleCount);
    Chart(maxX, xs, RevenueCurve(xs, Price(inp)), CostCurve(xs, FixedCosts(inp), inp.varCost), beUnits)
  }

  /** Evenly spaced points over an ascending interval never decrease. */
  lemma LinspaceNonDecreasing(start: real, stop: real, num: nat, i: nat, j: nat)
    requires start <= stop && i <= j < num
    ensures Linspace(start, stop, num)[i] <= Linspace(start, stop, num)[j]
  {
    if num >= 2 {
      var step := (stop - start) / (num - 1) as real;
      assert step >= 0.0;
      assert (j - i) as real * step >= 0.0;
      assert Linspace(start, stop, num)[j] - Linspace(start, stop, num)[i] == (j - i) as real * step;
    }
  }

  /** Every sample point lies between the two ends of the interval. */
  lemma LinspaceWithinBounds(start: real, stop: real, num: nat, i: nat)
    requires start <= stop && i < num
    ensures start <= Linspace(start, stop, num)[i] <= stop
  {
    LinspaceNonDecreasing(start, stop, num, 0, i);
    if num >= 2 {
      LinspaceNonDecreasing(start, stop, num, i, num - 1);
    }
  }

  /** Profit at `x` units is the distance from the break-even volume times
      the unit margin. */
  lemma ProfitAt(inp: Inputs, x: real)
    requires Calculate(inp).Ok?
    ensures Revenue(x, Price(inp)) - TotalCost(x, FixedCosts(inp), inp.varCost)
         == (x - Calculate(inp).beUnits) * Margin(inp)
  {
    var r := Calculate(inp);
    assert Revenue(x, Price(inp)) - TotalCost(x, FixedCosts(inp), inp.varCost)
        == x * Margin(inp) - r.beUnits * r.margin;
  }

  /** The revenue and cost lines meet at the break-even volume; below it
      costs exceed revenue and above it revenue exceeds costs. */
  lemma CurvesCrossAtBreakEven(inp: Inputs, x: real)
    requires Calculate(inp).Ok?
    ensures var be := Calculate(inp).beUnits;
      (x < be <==> Revenue(x, Price(inp)) < TotalCost(x, FixedCosts(inp), inp.varCost)) &&
      (x == be <==> Revenue(x, Price(inp)) == TotalCost(x, FixedCosts(inp), inp.varCost)) &&
      (x > be <==> Revenue(x, Price(inp)) > TotalCost(x, FixedCosts(inp), inp.varCost))
  {
    var be, m := Calculate(inp).beUnits, Margin(inp);
    ProfitAt(inp, x);
    if x < be {
      assert (x - be) * m < 0.0;
    } else if x > be {
      assert (x - be) * m > 0.0;
    }
  }

  /** On the plotted series, the cost curve lies above the revenue curve at
      exactly the sample points left of the break-even marker. */
  lemma PlotCrossesAtMarker(inp: Inputs)
    requires Calculate(inp).Ok?
    ensures var c := Plot(inp, Calculate(inp).beUnits);
      forall i :: 0 <= i < SampleCount ==>
        (c.revenue[i] < c.costs[i] <==> c.xs[i] < c.marker) &&
        (c.revenue[i] == c.costs[i] <==> c.xs[i] == c.marker)
  {
    var c := Plot(inp, Calculate(inp).beUnits);
    forall i | 0 <= i < SampleCount
      ensures c.revenue[i] < c.costs[i] <==> c.xs[i] < c.marker
      ensures c.revenue[i] == c.costs[i] <==> c.xs[i] == c.marker
    {
      CurvesCrossAtBreakEven(inp, c.xs[i]);
    }
  }

  /** With a non-negative break-even volume and sales target, every sample
      point lies on [0, maxX] and the points ascend. */
  lemma PlotDomainAscends(inp: Inputs, beUnits: real, i: nat, j: nat)
    requires beUnits >= 0.0 && inp.monthlySalesTarget >= 0
    requires i <= j < SampleCount
    ensures var c := Plot(inp, beUnits);
      0 <= c.maxX && 0.0 <= c.xs[i] <= c.xs[j] <= c.maxX as real
  {
    var maxX := ChartBound(beUnits, inp.monthlySalesTarget);
    LinspaceNonDecreasing(0.0, maxX as real, SampleCount, i, j);
    LinspaceWithinBounds(0.0, maxX as real, SampleCount, i);
    LinspaceWithinBounds(0.0, maxX as real, SampleCount, j);
  }

  /** A break-even volume of at least two units lies inside the plotted range. */
  lemma MarkerInsideRange(beUnits: real, target: int)
    requires beUnits >= 2.0
    ensures beUnits <= ChartBound(beUnits, target) as real
  {
  }

  /** With the sidebar's initial values the units axis ends at 397. */
  lemma DefaultChartBound()
    ensures Plot(DefaultInputs, Calculate(DefaultInputs).beUnits).maxX == 397
  {
    DefaultRun();
    assert Max(265.0 * 1.5, 100 as real * 1.5) == 397.5;
  }
}
