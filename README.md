# Break-Even Simulator — verified model of the calculation

The simulator is a single Streamlit page (`app.py`). From seven sidebar inputs
it derives an effective unit price, a unit margin and the total fixed costs;
when the margin is strictly positive it divides the fixed costs by the margin
to obtain the break-even number of units, shows the three metrics and draws a
chart of revenue and total cost over a range of unit volumes with a vertical
marker at the break-even point; otherwise it shows an error.

This project models that calculation in Dafny, over mathematical reals:

- `break_even.dfy`, module `BreakEven`: the inputs, the discount conversion,
  the derived quantities, the margin guard with its error outcome, and the
  properties of the break-even volume (it recovers the fixed costs exactly,
  it is unique, it is non-negative for non-negative costs, and it rises with
  the variable cost and with the discount).
- `chart.dfy`, module `BreakEvenChart`: the truncated upper end of the units
  axis, the 100 evenly spaced sample points, the revenue and cost curves and
  the fact that the curves cross exactly at the break-even marker.

Where the design description of the system and the code disagree, the model
follows the code:

- The fixed costs recovered by the break-even volume are the one-time startup
  cost plus the monthly overheads plus the marketing spend (`app.py:26`), not
  a monthly-only burden. With the initial inputs this gives 26500 / 100 = 265
  units (`BreakEven.DefaultRun`).
- The code has a single solve mode (units for a given price). Solving for a
  price, the payback period, the goal-seeking payback variant and a minimum
  chart width ("seed floor") are described for the system but do not exist
  in `app.py`, so they are not modelled.
- The chart axis runs to `int(max(1.5·be_units, 1.5·target))`, not to twice
  the break-even volume.
- The inputs have no lower bounds, so negative values are accepted; every
  property that needs non-negativity says so in its `requires`.

## Model

| member | source | states |
|---|---|---|
| BreakEven.DiscountFraction | app.py:19 | the fraction times 100 gives back the entered percentage; a percentage in [0, 100] gives a fraction in [0, 1] |
| BreakEven.EffectivePrice | app.py:24 | a zero discount leaves the price unchanged |
| BreakEven.DiscountedPriceBounds | app.py:24 | for a non-negative list price and a discount fraction in [0, 1] the effective price lies between zero and the list price |
| BreakEven.DeeperDiscountLowersPrice | app.py:24 | on a positive list price a larger discount gives a strictly lower effective price (so any positive discount lowers it below the list price) |
| BreakEven.UnitMargin | app.py:25 | the margin is positive exactly when the effective price exceeds the variable cost, and never exceeds the effective price when the variable cost is non-negative |
| BreakEven.TotalFixedCosts | app.py:26 | the fixed costs are the startup cost plus overheads plus marketing; with non-negative inputs they are at least each of the three |
| BreakEven.Calculate | app.py:29-31 | a break-even result exists exactly when the effective price exceeds the variable cost (otherwise the error outcome of lines 59-60); it carries the margin and the fixed costs, and break-even units times margin equal the fixed costs |
| BreakEven.BreakEvenIsUnique | app.py:31 | a number of units recovers the fixed costs if and only if it is the computed break-even volume |
| BreakEven.BreakEvenNonNegative | app.py:31 | with non-negative startup cost, overheads and marketing the break-even volume is non-negative |
| BreakEven.SmallerMarginNeedsMoreUnits | app.py:31 | positive fixed costs divided by a smaller positive margin give strictly more units |
| BreakEven.HigherVarCostRaisesBreakEven | app.py:25-31 | with positive fixed costs, raising the variable cost while the margin stays positive strictly raises the break-even volume |
| BreakEven.HigherDiscountRaisesBreakEven | app.py:19-31 | with positive fixed costs and list price, raising the discount while the margin stays positive strictly raises the break-even volume |
| BreakEven.DefaultRun | app.py:12-31 | the initial sidebar values give margin 100, fixed costs 26500 and 265 break-even units |
| BreakEvenChart.Trunc | app.py:41 | conversion to integer drops the fractional part toward zero: the result lies within one of the value, on the side of zero |
| BreakEvenChart.Max | app.py:41 | the result is one of the two arguments and at least both |
| BreakEvenChart.ChartBound | app.py:41 | with m the larger of 1.5·be_units and 1.5·target: for m ≥ 0 the axis end is a non-negative integer in (m − 1, m]; for m < 0 it is in [m, m + 1) |
| BreakEvenChart.Linspace | app.py:42 | exactly `num` points, the first equal to the start, the last equal to the stop, consecutive points a constant step apart |
| BreakEvenChart.LinspaceNonDecreasing | app.py:42 | over an ascending interval the sample points never decrease |
| BreakEvenChart.LinspaceWithinBounds | app.py:42 | over an ascending interval every sample point lies between the two ends |
| BreakEvenChart.RevenueCurve | app.py:44 | one revenue value per sample point, the revenue at that point |
| BreakEvenChart.CostCurve | app.py:45 | one cost value per sample point, the fixed costs plus the variable cost at that point |
| BreakEvenChart.Plot | app.py:41-50 | the chart has 100 sample points running from 0 to the axis end, a revenue and a cost value at each, and its marker at the break-even volume |
| BreakEvenChart.ProfitAt | app.py:44-45 | revenue minus cost at any volume equals the distance from the break-even volume times the margin |
| BreakEvenChart.CurvesCrossAtBreakEven | app.py:44-45 | revenue equals cost exactly at the break-even volume, is below it exactly for smaller volumes and above it exactly for larger volumes |
| BreakEvenChart.PlotCrossesAtMarker | app.py:42-50 | at every plotted sample point the cost curve is above the revenue curve exactly left of the marker, and the two are equal exactly at the marker |
| BreakEvenChart.PlotDomainAscends | app.py:41-42 | with non-negative break-even volume and target the axis end is non-negative and the sample points ascend within [0, axis end] |
| BreakEvenChart.MarkerInsideRange | app.py:41-50 | a break-even volume of at least two units is not beyond the axis end |
| BreakEvenChart.DefaultChartBound | app.py:41 | with the initial sidebar values the axis ends at 397 |

## Left out

- Page configuration, the sidebar widgets, the run button and the info and error messages (`app.py:1-20`, `28`, `34-37`, `60-62`): user interface. The button only decides whether the calculation runs; `Calculate` is one run.
- The figure construction and styling (`app.py:47-58`): rendering only; `Plot` keeps the plotted numbers and the marker position.
- Floating-point arithmetic: every quantity is a mathematical real, so rounding in the products, the division and the sample points of `np.linspace` is not modelled, nor are infinities or NaN inputs.
- The number formatting of the metrics (`app.py:35-37`): presentation.
- Solve-for-price, payback period, goal-seeking payback and a minimum chart width: described for the system but not present in `app.py`.
