/** The calculator as the page runs it: clamp the parsed fields, collect
    the lines one guarded `addLine` call at a time into a mutable list and
    a running total, then render. Its result is proved equal to the pure
    estimate of module Estimate. */
module Calculator {
  import opened Prices
  import opened Estimate
  import opened Display

  /** The `lines` array and the `total` variable that `addLine` updates.
      Invariant: the total is the sum of the recorded lines. */
  class LineAccumulator {
    var lines: seq<Line>
    var total: real

    ghost predicate Valid()
      reads this
    {
      total == Sum(lines)
    }

    constructor ()
      ensures Valid() && lines == [] && total == 0.0
    {
      lines := [];
      total := 0.0;
    }

    /** Record a line and add its amount to the total, unless the amount
        is not strictly positive, in which case nothing changes. */
    method AddLine(item: Item, amount: real)
      requires Valid()
      modifies this
      ensures Valid()
      ensures lines == old(lines) + Kept(item, amount)
      ensures total == old(total) + (if amount > 0.0 then amount else 0.0)
    {
      if amount <= 0.0 {
        return;
      }
      SumAppend(lines, [Line(item, amount)]);
      lines := lines + [Line(item, amount)];
      total := total + amount;
    }
  }

  /** The two optional preparation blocks: removing the old floor, and
      preparing the subfloor. */
  method AddPreparation(acc: LineAccumulator, c: Inputs)
    requires acc.Valid() && c.area > 0.0
    modifies acc
    ensures acc.Valid()
    ensures acc.lines == old(acc.lines) + (Step(c, Removal) + Step(c, Disposal) + Step(c, Sanding) + Step(c, Vacuuming))
  {
    StepValues(c);
    ghost var l0 := acc.lines;
    if c.oldFloor {
      acc.AddLine(Removal, c.area * RemovalRate);
      acc.AddLine(Disposal, c.area * DisposalRate);
    }
    assert acc.lines == l0 + Step(c, Removal) + Step(c, Disposal);
    ghost var l2 := acc.lines;
    if c.prep {
      acc.AddLine(Sanding, c.area * SandingRate);
      acc.AddLine(Vacuuming, c.area * VacuumingRate);
    }
    assert acc.lines == l2 + Step(c, Sanding) + Step(c, Vacuuming);
    Regroup4(l0, Step(c, Removal), Step(c, Disposal), Step(c, Sanding), Step(c, Vacuuming));
  }

  /** The labour lines: laying, and fitting the baseboards and the
      transition strips when there are any. */
  method AddLabour(acc: LineAccumulator, c: Inputs)
    requires acc.Valid() && c.area > 0.0
    modifies acc
    ensures acc.Valid()
    ensures acc.lines == old(acc.lines) + (Step(c, Laying) + Step(c, BaseboardInstall) + Step(c, TransitionInstall))
  {
    StepValues(c);
    ghost var l4 := acc.lines;
    acc.AddLine(Laying, c.area * LayingRate);
    assert acc.lines == l4 + Step(c, Laying);
    ghost var l5 := acc.lines;
    if c.baseboard > 0.0 {
      acc.AddLine(BaseboardInstall, c.baseboard * BaseboardInstallRate);
    }
    assert acc.lines == l5 + Step(c, BaseboardInstall);
    ghost var l6 := acc.lines;
    if c.transitions > 0 {
      acc.AddLine(TransitionInstall, c.transitions as real * TransitionInstallRate);
    }
    assert acc.lines == l6 + Step(c, TransitionInstall);
    Regroup3(l4, Step(c, Laying), Step(c, BaseboardInstall), Step(c, TransitionInstall));
  }

  /** The material lines: the vinyl, and the baseboards and the transition
      strips when there are any. */
  method AddMaterial(acc: LineAccumulator, c: Inputs)
    requires acc.Valid() && c.area > 0.0
    modifies acc
    ensures acc.Valid()
    ensures acc.lines == old(acc.lines) + (Step(c, Vinyl) + Step(c, BaseboardMaterial) + Step(c, TransitionMaterial))
  {
    StepValues(c);
    ghost var l7 := acc.lines;
    acc.AddLine(Vinyl, c.area * VinylRate);
    assert acc.lines == l7 + Step(c, Vinyl);
    ghost var l8 := acc.lines;
    if c.baseboard > 0.0 {
      acc.AddLine(BaseboardMaterial, c.baseboard * BaseboardMaterialRate);
    }
    assert acc.lines == l8 + Step(c, BaseboardMaterial);
    ghost var l9 := acc.lines;
    if c.transitions > 0 {
      acc.AddLine(TransitionMaterial, c.transitions as real * TransitionMaterialRate);
    }
    assert acc.lines == l9 + Step(c, TransitionMaterial);
    Regroup3(l7, Step(c, Vinyl), Step(c, BaseboardMaterial), Step(c, TransitionMaterial));
  }

  /** The two flat fees: delivery and handling. */
  method AddFees(acc: LineAccumulator, c: Inputs)
    requires acc.Valid() && c.area > 0.0
    modifies acc
    ensures acc.Valid()
    ensures acc.lines == old(acc.lines) + (Step(c, Delivery) + Step(c, Handling))
  {
    ghost var l10 := acc.lines;
    acc.AddLine(Delivery, DeliveryFee);
    assert acc.lines == l10 + Step(c, Delivery);
    ghost var l11 := acc.lines;
    acc.AddLine(Handling, HandlingFee);
    assert acc.lines == l11 + Step(c, Handling);
    Assoc(l10, Step(c, Delivery), Step(c, Handling));
  }

  /** The guarded `addLine` calls, in the source's order, on already
      clamped inputs. */
  method Accumulate(c: Inputs) returns (lines: seq<Line>, total: real)
    ensures lines == Breakdown(c)
    ensures total == Sum(lines)
    ensures AllPositive(lines)
  {
    var acc := new LineAccumulator();
    if c.area > 0.0 {
      ghost var preparation := Step(c, Removal) + Step(c, Disposal) + Step(c, Sanding) + Step(c, Vacuuming);
      ghost var labour := Step(c, Laying) + Step(c, BaseboardInstall) + Step(c, TransitionInstall);
      ghost var material := Step(c, Vinyl) + Step(c, BaseboardMaterial) + Step(c, TransitionMaterial);
      ghost var fees := Step(c, Delivery) + Step(c, Handling);
      AddPreparation(acc, c);
      assert acc.lines == preparation;
      AddLabour(acc, c);
      AddMaterial(acc, c);
      AddFees(acc, c);
      assert acc.lines == preparation + labour + material + fees;
      BreakdownInGroups(c);
      Assoc(preparation, labour, material + fees);
      Assoc(preparation + labour, material, fees);
    }
    lines, total := acc.lines, acc.total;
    BreakdownPositive(c);
  }

  /** What the page shows for the parsed field values. */
  function Page(raw: Inputs): View
  {
    var c := Clamp(raw);
    Render(c.area, Breakdown(c), Total(c))
  }

  /** One run of the calculator: clamp, accumulate, render. */
  method UpdateCalculator(raw: Inputs) returns (view: View)
    ensures view == Page(raw)
  {
    var c := Clamp(raw);
    var lines, total := Accumulate(c);
    view := Render(c.area, lines, total);
  }

  /** Without a positive area the page shows the placeholder and a zero
      total, whatever the other fields hold; a negative area is shown as
      an area of zero. */
  lemma ZeroAreaPlaceholder(raw: Inputs)
    requires raw.area <= 0.0
    ensures Page(raw) == Placeholder(PlaceholderMessage) && ShownTotal(Page(raw)) == 0
    ensures Page(raw) == Page(raw.(area := 0.0))
    ensures Breakdown(Clamp(raw)) == [] && Total(Clamp(raw)) == 0.0
  {
  }

  /** With a positive area the page lists every line of the breakdown in
      order, labelled and rounded, and the rounded total, which is the
      rounded sum of the listed amounts. */
  lemma PageListsBreakdown(raw: Inputs)
    requires raw.area > 0.0
    ensures var c := Clamp(raw);
      var v := Page(raw);
      v.Itemised? && |v.rows| == |Breakdown(c)| &&
      (forall i | 0 <= i < |v.rows| :: v.rows[i] == Row(Label(Breakdown(c)[i].item), Round(Breakdown(c)[i].amount))) &&
      ShownTotal(v) == Round(Sum(Breakdown(c))) &&
      ShownTotal(v) >= 1500 + Round(c.area * (LayingRate + VinylRate))
  {
    var c := Clamp(raw);
    TotalClosedForm(c);
    RoundProperties(0, c.area * (LayingRate + VinylRate) + 1500.0, Total(c));
    assert Round(c.area * (LayingRate + VinylRate) + 1500.0) == Round(c.area * (LayingRate + VinylRate)) + 1500;
  }
}
