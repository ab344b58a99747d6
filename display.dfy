/** What the estimator puts on the page: either the placeholder that asks
    for a floor area, or one row per line and the total, each amount
    rounded to whole Kč the way `Math.round` rounds. */
module Display {
  import opened Prices
  import opened Estimate

  /** `Math.round`: the nearest integer, halves rounded up (towards
      positive infinity, so -2.5 becomes -2). */
  function Round(x: real): (n: int)
    ensures n as real - 0.5 <= x < n as real + 0.5
  {
    (x + 0.5).Floor
  }

  /** Rounding keeps whole amounts and never reverses the order of two
      amounts. */
  lemma RoundProperties(n: int, x: real, y: real)
    ensures Round(n as real) == n
    ensures x <= y ==> Round(x) <= Round(y)
  {
  }

  /** Halves go up, also below zero. */
  lemma RoundExamples()
    ensures Round(2.5) == 3 && Round(2.4999) == 2 && Round(-2.5) == -2 && Round(-2.51) == -3
  {
  }

  /** One row of the breakdown list: the label (`caption`, since `label` is
      a Dafny keyword) and the rounded amount. */
  datatype Row = Row(caption: string, amount: int)

  datatype View =
    | Placeholder(message: string)           // no area: a prompt, and "0 Kč" as the total
    | Itemised(rows: seq<Row>, total: int)   // the rows in line order, and the rounded total

  const PlaceholderMessage: string := "Zadejte výměru podlahy pro orientační výpočet."

  /** The whole-Kč figure of the total display. */
  function ShownTotal(v: View): int
  {
    match v
    case Placeholder(_) => 0
    case Itemised(_, t) => t
  }

  /** The rendered rows, in line order. */
  function Rows(ls: seq<Line>): (r: seq<Row>)
    ensures |r| == |ls|
    ensures forall i | 0 <= i < |ls| :: r[i] == Row(Label(ls[i].item), Round(ls[i].amount))
  {
    if ls == [] then [] else [Row(Label(ls[0].item), Round(ls[0].amount))] + Rows(ls[1..])
  }

  /** The page for a clamped area, the lines and the running total, shown
      as the placeholder exactly when the area is not positive. */
  function Render(area: real, ls: seq<Line>, total: real): (v: View)
    ensures v.Placeholder? <==> area <= 0.0
    ensures v.Placeholder? ==> v.message == PlaceholderMessage && ShownTotal(v) == 0
    ensures v.Itemised? ==> v.rows == Rows(ls) && v.total == Round(total)
  {
    if area <= 0.0 then Placeholder(PlaceholderMessage) else Itemised(Rows(ls), Round(total))
  }
}
