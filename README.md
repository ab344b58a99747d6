# Flooring price estimator — a Dafny model

This project models the price calculator of a flooring contractor's web page.
The visitor enters:

- a floor area in m²;
- a baseboard length in running metres;
- a number of transition strips;
- two check boxes: remove the old floor, and prepare the subfloor.

From these the calculator builds an itemised breakdown of the job and its
total in Kč. It shows a placeholder prompt instead when no positive area is
entered.

The model has four modules:

- `Prices` (`prices.dfy`): the fixed price table. There is one enumerated
  category per table key, its unit price, and the label the breakdown shows.
- `Estimate` (`estimate.dfy`): the pure specification. It covers the
  clamping of the parsed inputs, the twelve guarded pricing rules in their
  fixed order, the breakdown as a fold of those rules, and the total as the
  sum of its lines. All properties of the estimate are proved here.
- `Display` (`display.dfy`): what reaches the page. It models `Math.round`
  on the amounts, the rows of the breakdown list, and the choice between
  the placeholder and the itemised view.
- `Calculator` (`calculator.dfy`): the calculator as the page runs it.
  `LineAccumulator` is a class holding the mutable `lines` list and the
  running `total`. Its `AddLine` method is the source's `addLine`: it skips
  amounts that are not positive and otherwise appends and adds. The guarded
  calls are made in the source's order. The method's result is proved equal
  to the pure breakdown and total of `Estimate`, and the rendered view
  equal to the specification's page.

Amounts are exact `real`s. The count of lines is an unbounded integer.

For 20 m², 5 m of baseboard, 2 strips and both boxes ticked, the
calculator yields twelve lines: four from the two check boxes, laying and
vinyl, two each for baseboard and strips, and the two fees.
`Estimate.FullScenario` proves all twelve appear, in rule order, with a
total of 26 545 Kč.

Every guarded amount is strictly positive whenever the area is positive.
This holds because each per-quantity rule is guarded by its quantity being
positive, and every price is positive. So the `amount <= 0` test in
`addLine` never drops a line with this price table
(`Estimate.GuardedAmountPositive`). The model still keeps the test.

## Model

| member | source | states |
|---|---|---|
| Prices.Price | script.js:84-97 | the price table: one unit price or flat fee per category, with the table's twelve values |
| Prices.Label | script.js:115-141 | the label each `addLine` call passes, one per category, with its unit price in the text |
| Estimate.Kept | script.js:108-111 | what one `addLine(label, amount)` records: nothing for an amount that is not positive, otherwise one line with that amount |
| Estimate.Guard | script.js:114-141 | the `if` enclosing each call inside `area > 0`: the old-floor box for removal and disposal, the prep box for sanding and vacuuming, a positive baseboard length or strip count for their two lines each, and no condition for laying, vinyl and the fees |
| Estimate.Amount | script.js:116-141 | the amount each call passes: area, baseboard length or strip count times the category's unit price, or the flat fee |
| Estimate.Step | script.js:114-141 | one guarded call: its kept line when the guard holds, nothing otherwise |
| Estimate.Emit | script.js:114-141 | the calls of a rule list in order, their lines concatenated |
| Estimate.Breakdown | script.js:114-142 | the lines: the twelve rules in call order when the area is positive, none otherwise |
| Estimate.Total | script.js:106-111 | the running total as the sum of the amounts of the lines |
| Calculator.Page | script.js:144-156 | one run's page from the parsed fields: clamp, then render the clamped area, the breakdown and the total |
| Prices.PricesPositive | script.js:84-97 | every entry of the price table is strictly positive |
| Prices.LabelsDistinct | script.js:115-141 | distinct categories carry distinct breakdown labels |
| Estimate.ClampReal | script.js:102-103 | `Math.max(x, 0)`: the result is non-negative, at least `x`, and is either `x` or 0 |
| Estimate.ClampInt | script.js:104 | the integer clamp: a natural number, at least `n`, either `n` or 0 |
| Estimate.Clamp | script.js:102-104 | area, baseboard and strips are clamped to be non-negative; the check boxes pass through unchanged |
| Estimate.ClampIdempotent | script.js:102-104 | clamping twice is clamping once, and clamping leaves an input unchanged exactly when it is already in range |
| Estimate.RulesRanked | script.js:115-141 | the rule list holds each of the twelve categories exactly once, at its display rank |
| Estimate.GuardedAmountPositive | script.js:108-141 | with a positive area, every rule whose guard holds passes a strictly positive amount, so it contributes exactly its one line |
| Estimate.BreakdownPositive | script.js:108-112 | every line of the breakdown has a strictly positive amount |
| Estimate.BreakdownOrdered | script.js:114-141 | the lines strictly follow the order of the `addLine` calls, so no category appears twice |
| Estimate.BreakdownMembers | script.js:114-141 | a category's line, with its computed amount, is in the breakdown if and only if the area is positive and its guard holds; every line has a holding guard and its rule's amount |
| Estimate.ItemPresent | script.js:114-141 | with a positive area, a category appears in the breakdown if and only if its guard holds |
| Estimate.OptionalLines | script.js:115-141 | with a positive area: the removal lines appear iff the old floor is removed; the preparation lines iff the subfloor is prepared; both baseboard lines iff the baseboard length is positive; both strip lines iff the number of strips is positive; laying, vinyl, delivery and handling always appear |
| Estimate.StepMeasures | script.js:108-112 | with a positive area, one rule adds one line and its amount exactly when its guard holds, and nothing otherwise |
| Estimate.LineCount | script.js:114-142 | no lines without a positive area; otherwise 4 lines plus 2 for each ticked box and each positive quantity, so between 4 and 12 |
| Estimate.BreakdownInGroups | script.js:114-141 | with a positive area, the breakdown is the twelve rules' steps in call order: the check-box blocks, the labour lines, the material lines and the fees |
| Estimate.TotalClosedForm | script.js:114-141 | the total is 0 without a positive area; otherwise it is area × (240 + 649), plus area × (40 + 30) when the old floor is removed, plus area × (150 + 20) when the subfloor is prepared, plus baseboard × (120 + 249) when the baseboard length is positive, plus strips × (150 + 160) when there are strips, plus 600 + 900 |
| Estimate.TotalMonotoneInArea | script.js:114-141 | a larger area, with everything else the same, never lowers the total |
| Estimate.OldFloorToggle | script.js:115-118 | ticking "remove the old floor" puts exactly the removal and disposal lines in front of the breakdown and raises the total by area × 70 |
| Estimate.PrepToggle | script.js:119-122 | ticking "prepare the subfloor" inserts exactly the sanding and vacuuming lines right after the removal lines and raises the total by area × 170 |
| Estimate.BaseScenario | script.js:124-141 | with a positive area, no box ticked, no baseboard and no strips, the breakdown is exactly laying, vinyl, delivery and handling, and the total is area × 240 + area × 649 + 600 + 900 |
| Estimate.FullScenario | script.js:114-141 | 20 m², 5 m of baseboard, 2 strips and both boxes give all twelve categories in rule order and a total of 26 545 Kč |
| Display.Round | script.js:99 | `Math.round`: the nearest integer, with halves rounded up |
| Display.RoundProperties | script.js:99 | rounding keeps whole numbers and is monotone |
| Display.RoundExamples | script.js:99 | halves go towards positive infinity, also below zero |
| Display.Rows | script.js:150-155 | one row per line, in line order, with the line's label and rounded amount |
| Display.Render | script.js:144-156 | the page is the placeholder exactly when the area is not positive (the prompt and a total of 0 Kč); otherwise it is the rows of the lines and the rounded total |
| Calculator.LineAccumulator.constructor | script.js:105-106 | the empty line list and a zero total |
| Calculator.LineAccumulator.AddLine | script.js:108-112 | an amount that is not positive changes nothing; a positive one appends its line and adds to the total, which stays the sum of the lines |
| Calculator.AddPreparation | script.js:115-122 | the two check-box blocks append exactly the removal and preparation steps |
| Calculator.AddLabour | script.js:124-130 | the laying line, then the baseboard and strip fitting lines when their quantity is positive |
| Calculator.AddMaterial | script.js:132-138 | the vinyl line, then the baseboard and strip material lines when their quantity is positive |
| Calculator.AddFees | script.js:140-141 | the delivery and handling lines |
| Calculator.Accumulate | script.js:105-142 | the mutable accumulation ends with exactly the specification's breakdown, a total equal to the sum of its lines, and only positive lines |
| Calculator.UpdateCalculator | script.js:101-157 | clamping, accumulating and rendering produce exactly the specification's page |
| Calculator.ZeroAreaPlaceholder | script.js:144-147 | a non-positive area shows the placeholder and 0 Kč whatever the other fields hold, with an empty breakdown and a zero total |
| Calculator.PageListsBreakdown | script.js:150-156 | with a positive area, the page lists every line in order, labelled and rounded; the shown total is the rounded sum of the amounts and is at least 1500 + round(area × 889) |

## Left out

- Reading the form fields: `parseFloat`/`parseInt` and the `|| 0` fallback for a missing field or NaN are not modelled. The model starts from the parsed numbers, and a non-number is taken to arrive as 0.
- Number formatting: `Intl.NumberFormat` (digit grouping and the " Kč" suffix) is not modelled. Only the rounded integer is; the placeholder's "0 Kč" is modelled as a shown total of 0.
- DOM output is represented by the `View` value. The `innerHTML` and `textContent` writes, and the markup around each row, are not modelled.
- Event wiring (the `input` and `change` listeners and the initial call) is not modelled. `UpdateCalculator` is one run of the handler.
- The mobile menu, smooth scrolling and the intersection observer in the same file are outside the calculator and are not modelled.
- Floating point: amounts are exact reals, not IEEE doubles. So rounding effects of binary fractions, such as an area of 0.1 m², are not captured. Nor is overflow: a field too large for a double, such as "1e400", parses to `Infinity`, and the page then shows "∞ Kč"; an exact real cannot be infinite.
- Calculator.Accumulate: the source makes its guarded `addLine` calls in one function body. The model splits them into four methods (`AddPreparation`, `AddLabour`, `AddMaterial`, `AddFees`), which follow the source's blank-line-separated blocks. The calls and their order are unchanged.
