/** The pure specification of the flooring estimate: which lines a set of
    inputs produces, in which order, with which amounts, and their total.
    The estimate is a fold over the ordered rule list `Rules`; each rule is
    one `addLine` call of the calculator, with its guard and its amount. */
module Estimate {
  import opened Prices

  /** The calculator's inputs once parsed: floor area in m², baseboard
      length in running metres, the number of transition strips, and the
      two check boxes (remove the old floor, prepare the subfloor). */
  datatype Inputs = Inputs(area: real, baseboard: real, transitions: int, oldFloor: bool, prep: bool)

  /** One line of the breakdown: its category and its amount in Kč. */
  datatype Line = Line(item: Item, amount: real)

  /** `Math.max(x, 0)` on a parsed real. */
  function ClampReal(x: real): (r: real)
    ensures r >= 0.0 && r >= x
    ensures r == x || r == 0.0
  {
    if x > 0.0 then x else 0.0
  }

  /** `Math.max(n, 0)` on a parsed integer. */
  function ClampInt(n: int): (r: nat)
    ensures r >= n
    ensures r == n || r == 0
  {
    if n > 0 then n else 0
  }

  predicate Clamped(c: Inputs)
  {
    c.area >= 0.0 && c.baseboard >= 0.0 && c.transitions >= 0
  }

  /** The clamping of the three numeric inputs; the check boxes pass through. */
  function Clamp(raw: Inputs): (c: Inputs)
    ensures Clamped(c)
    ensures c.area == ClampReal(raw.area) && c.baseboard == ClampReal(raw.baseboard)
    ensures c.transitions == ClampInt(raw.transitions)
    ensures c.oldFloor == raw.oldFloor && c.prep == raw.prep
  {
    Inputs(ClampReal(raw.area), ClampReal(raw.baseboard), ClampInt(raw.transitions), raw.oldFloor, raw.prep)
  }

  /** Clamping changes nothing in inputs that are already in range, so
      clamping twice is clamping once. */
  lemma ClampIdempotent(raw: Inputs)
    ensures Clamp(Clamp(raw)) == Clamp(raw)
    ensures Clamped(raw) <==> Clamp(raw) == raw
  {
  }

  /** The calculator's rules in the order of its `addLine` calls. */
  const Rules: seq<Item> := [Removal, Disposal, Sanding, Vacuuming, Laying, BaseboardInstall,
                             TransitionInstall, Vinyl, BaseboardMaterial, TransitionMaterial,
                             Delivery, Handling]

  /** The position of a category in `Rules`, which is its display position. */
  function Rank(k: Item): nat
  {
    match k
    case Removal => 0
    case Disposal => 1
    case Sanding => 2
    case Vacuuming => 3
    case Laying => 4
    case BaseboardInstall => 5
    case TransitionInstall => 6
    case Vinyl => 7
    case BaseboardMaterial => 8
    case TransitionMaterial => 9
    case Delivery => 10
    case Handling => 11
  }

  lemma RulesRanked()
    ensures |Rules| == 12
    ensures forall i | 0 <= i < |Rules| :: Rank(Rules[i]) == i
    ensures forall k: Item :: Rank(k) < 12 && Rules[Rank(k)] == k
    ensures forall k: Item :: k in Rules
  {
    forall k: Item ensures k in Rules {
      assert Rules[Rank(k)] == k;
    }
  }

  /** The `if` that encloses a rule's `addLine` call inside `area > 0`. */
  predicate Guard(c: Inputs, k: Item)
  {
    match k
    case Removal | Disposal => c.oldFloor
    case Sanding | Vacuuming => c.prep
    case BaseboardInstall | BaseboardMaterial => c.baseboard > 0.0
    case TransitionInstall | TransitionMaterial => c.transitions > 0
    case Laying | Vinyl | Delivery | Handling => true
  }

  /** The amount a rule passes to `addLine`: quantity times unit price, or
      the flat fee. */
  function Amount(c: Inputs, k: Item): real
  {
    match k
    case Removal | Disposal | Sanding | Vacuuming | Laying | Vinyl => c.area * Price(k)
    case BaseboardInstall | BaseboardMaterial => c.baseboard * Price(k)
    case TransitionInstall | TransitionMaterial => c.transitions as real * Price(k)
    case Delivery | Handling => Price(k)
  }

  /** What one `addLine(k, amount)` call records: nothing for an amount
      that is not strictly positive. */
  function Kept(k: Item, amount: real): seq<Line>
  {
    if amount <= 0.0 then [] else [Line(k, amount)]
  }

  /** What one rule contributes to the breakdown. */
  function Step(c: Inputs, k: Item): seq<Line>
  {
    if Guard(c, k) then Kept(k, Amount(c, k)) else []
  }

  /** Each rule's step spelled out with its unit price. */
  lemma StepValues(c: Inputs)
    ensures Step(c, Removal) == if c.oldFloor then Kept(Removal, c.area * RemovalRate) else []
    ensures Step(c, Disposal) == if c.oldFloor then Kept(Disposal, c.area * DisposalRate) else []
    ensures Step(c, Sanding) == if c.prep then Kept(Sanding, c.area * SandingRate) else []
    ensures Step(c, Vacuuming) == if c.prep then Kept(Vacuuming, c.area * VacuumingRate) else []
    ensures Step(c, Laying) == Kept(Laying, c.area * LayingRate)
    ensures Step(c, BaseboardInstall) == if c.baseboard > 0.0 then Kept(BaseboardInstall, c.baseboard * BaseboardInstallRate) else []
    ensures Step(c, TransitionInstall) == if c.transitions > 0 then Kept(TransitionInstall, c.transitions as real * TransitionInstallRate) else []
    ensures Step(c, Vinyl) == Kept(Vinyl, c.area * VinylRate)
    ensures Step(c, BaseboardMaterial) == if c.baseboard > 0.0 then Kept(BaseboardMaterial, c.baseboard * BaseboardMaterialRate) else []
    ensures Step(c, TransitionMaterial) == if c.transitions > 0 then Kept(TransitionMaterial, c.transitions as real * TransitionMaterialRate) else []
    ensures Step(c, Delivery) == Kept(Delivery, DeliveryFee)
    ensures Step(c, Handling) == Kept(Handling, HandlingFee)
  {
  }

  /** The lines a list of rules produces, in rule order. */
  function Emit(c: Inputs, ks: seq<Item>): seq<Line>
  {
    if ks == [] then [] else Step(c, ks[0]) + Emit(c, ks[1..])
  }

  /** The breakdown: no line at all unless the area is positive. */
  function Breakdown(c: Inputs): seq<Line>
  {
    if c.area > 0.0 then Emit(c, Rules) else []
  }

  function Sum(ls: seq<Line>): real
  {
    if ls == [] then 0.0 else ls[0].amount + Sum(ls[1..])
  }

  /** The estimate's total: the sum of its lines. */
  function Total(c: Inputs): real
  {
    Sum(Breakdown(c))
  }

  predicate AllPositive(ls: seq<Line>)
  {
    forall i | 0 <= i < |ls| :: ls[i].amount > 0.0
  }

  predicate StrictlyRanked(ks: seq<Item>)
  {
    forall i, j | 0 <= i < j < |ks| :: Rank(ks[i]) < Rank(ks[j])
  }

  /** The categories of a list of lines, in order. */
  function Items(ls: seq<Line>): (r: seq<Item>)
    ensures |r| == |ls| && forall i | 0 <= i < |ls| :: r[i] == ls[i].item
  {
    if ls == [] then [] else [ls[0].item] + Items(ls[1..])
  }

  /** The lines' categories strictly follow the rule order. */
  predicate InRuleOrder(ls: seq<Line>)
  {
    forall i, j | 0 <= i < j < |ls| :: Rank(ls[i].item) < Rank(ls[j].item)
  }

  // ---------------------------------------------------------------------
  // Sums and positivity

  lemma {:induction false} SumAppend(a: seq<Line>, b: seq<Line>)
    ensures Sum(a + b) == Sum(a) + Sum(b)
  {
    if a == [] {
      assert a + b == b;
    } else {
      assert (a + b)[1..] == a[1..] + b;
      SumAppend(a[1..], b);
    }
  }

  /** A kept line adds exactly its amount, a dropped one nothing. */
  lemma SumKept(k: Item, amount: real)
    ensures Sum(Kept(k, amount)) == if amount > 0.0 then amount else 0.0
    ensures AllPositive(Kept(k, amount))
  {
  }

  /** A guarded rule's amount is always positive when the area is: each
      per-quantity rule is guarded by its quantity being positive, and the
      flat fees are positive. So the `amount <= 0` test never drops a line
      of this price table. */
  lemma GuardedAmountPositive(c: Inputs, k: Item)
    requires c.area > 0.0 && Guard(c, k)
    ensures Amount(c, k) > 0.0
    ensures Step(c, k) == [Line(k, Amount(c, k))]
  {
    PricesPositive(k);
  }

  lemma {:induction false} EmitPositive(c: Inputs, ks: seq<Item>)
    ensures AllPositive(Emit(c, ks))
  {
    if ks != [] {
      EmitPositive(c, ks[1..]);
      SumKept(ks[0], Amount(c, ks[0]));
    }
  }

  /** Every line of the breakdown has a strictly positive amount. */
  lemma BreakdownPositive(c: Inputs)
    ensures AllPositive(Breakdown(c))
  {
    EmitPositive(c, Rules);
  }

  // ---------------------------------------------------------------------
  // Which lines appear, and in which order

  /** A line of `Emit(c, ks)` comes from a rule of `ks` whose guard holds,
      with that rule's amount; conversely every such rule with a positive
      amount yields its line. */
  lemma {:induction false} EmitMembers(c: Inputs, ks: seq<Item>)
    ensures forall l | l in Emit(c, ks) :: l.item in ks && Guard(c, l.item) && l.amount == Amount(c, l.item)
    ensures forall k | k in ks && Guard(c, k) && Amount(c, k) > 0.0 :: Line(k, Amount(c, k)) in Emit(c, ks)
  {
    if ks != [] {
      EmitMembers(c, ks[1..]);
      forall k | k in ks && Guard(c, k) && Amount(c, k) > 0.0
        ensures Line(k, Amount(c, k)) in Emit(c, ks)
      {
        if k != ks[0] {
          assert k in ks[1..];
        }
      }
    }
  }

  lemma InRuleOrderPrepend(head: seq<Line>, k: Item, tail: seq<Line>)
    requires head == [] || head == [Line(k, head[0].amount)]
    requires InRuleOrder(tail)
    requires forall l | l in tail :: Rank(k) < Rank(l.item)
    ensures InRuleOrder(head + tail)
  {
    var all := head + tail;
    forall i, j | 0 <= i < j < |all| ensures Rank(all[i].item) < Rank(all[j].item) {
      if head != [] && i == 0 {
        assert all[j] == tail[j - 1];
        assert all[j] in tail;
      } else {
        assert all[i] == tail[i - |head|] && all[j] == tail[j - |head|];
      }
    }
  }

  lemma {:induction false} EmitOrdered(c: Inputs, ks: seq<Item>)
    requires StrictlyRanked(ks)
    ensures InRuleOrder(Emit(c, ks))
  {
    if ks != [] {
      var rest := ks[1..];
      assert StrictlyRanked(rest) by {
        forall i, j | 0 <= i < j < |rest| ensures Rank(rest[i]) < Rank(rest[j]) {
          assert rest[i] == ks[i + 1] && rest[j] == ks[j + 1];
        }
      }
      EmitOrdered(c, rest);
      EmitMembers(c, rest);
      forall l | l in Emit(c, rest) ensures Rank(ks[0]) < Rank(l.item) {
        var m :| 0 <= m < |rest| && rest[m] == l.item;
        assert rest[m] == ks[m + 1];
      }
      InRuleOrderPrepend(Step(c, ks[0]), ks[0], Emit(c, rest));
    }
  }

  /** The lines appear in the order of the rules, so no category appears
      twice. */
  lemma BreakdownOrdered(c: Inputs)
    ensures InRuleOrder(Breakdown(c))
  {
    RulesRanked();
    if c.area > 0.0 {
      EmitOrdered(c, Rules);
    }
  }

  /** A category's line, with its computed amount, is in the breakdown if
      and only if the area is positive and the category's guard holds; the
      breakdown holds no other line. */
  lemma BreakdownMembers(c: Inputs)
    ensures forall k: Item :: Line(k, Amount(c, k)) in Breakdown(c) <==> c.area > 0.0 && Guard(c, k)
    ensures forall l | l in Breakdown(c) :: c.area > 0.0 && Guard(c, l.item) && l.amount == Amount(c, l.item)
  {
    RulesRanked();
    EmitMembers(c, Rules);
    forall k: Item | c.area > 0.0 && Guard(c, k) ensures Amount(c, k) > 0.0 {
      GuardedAmountPositive(c, k);
    }
  }

  /** With a positive area, a category shows up in the breakdown exactly
      when its guard holds. */
  lemma ItemPresent(c: Inputs, k: Item)
    requires c.area > 0.0
    ensures k in Items(Breakdown(c)) <==> Guard(c, k)
  {
    BreakdownMembers(c);
    var b := Breakdown(c);
    if k in Items(b) {
      var i :| 0 <= i < |b| && Items(b)[i] == k;
      assert b[i] in b;
    }
    if Guard(c, k) {
      var i :| 0 <= i < |b| && b[i] == Line(k, Amount(c, k));
      assert Items(b)[i] == k;
    }
  }

  /** With a positive area: the removal lines appear exactly when the old
      floor is to be removed, the preparation lines exactly when the
      subfloor is to be prepared, both baseboard lines exactly when there
      is baseboard, both strip lines exactly when there are strips, and
      laying, vinyl and the two fees always. */
  lemma OptionalLines(c: Inputs)
    requires c.area > 0.0
    ensures var its := Items(Breakdown(c));
      (Removal in its <==> c.oldFloor) && (Disposal in its <==> c.oldFloor) &&
      (Sanding in its <==> c.prep) && (Vacuuming in its <==> c.prep) &&
      (BaseboardInstall in its <==> c.baseboard > 0.0) && (BaseboardMaterial in its <==> c.baseboard > 0.0) &&
      (TransitionInstall in its <==> c.transitions > 0) && (TransitionMaterial in its <==> c.transitions > 0) &&
      Laying in its && Vinyl in its && Delivery in its && Handling in its
  {
    ItemPresent(c, Removal);
    ItemPresent(c, Disposal);
    ItemPresent(c, Sanding);
    ItemPresent(c, Vacuuming);
    ItemPresent(c, Laying);
    ItemPresent(c, BaseboardInstall);
    ItemPresent(c, TransitionInstall);
    ItemPresent(c, Vinyl);
    ItemPresent(c, BaseboardMaterial);
    ItemPresent(c, TransitionMaterial);
    ItemPresent(c, Delivery);
    ItemPresent(c, Handling);
  }

  /** Inputs on which every rule of `ks` fires give one line per rule, in
      rule order, with the rule's amount. */
  lemma {:induction false} EmitAll(c: Inputs, ks: seq<Item>)
    requires c.area > 0.0
    requires forall k | k in ks :: Guard(c, k)
    ensures |Emit(c, ks)| == |ks|
    ensures forall i | 0 <= i < |ks| :: Emit(c, ks)[i] == Line(ks[i], Amount(c, ks[i]))
  {
    if ks != [] {
      GuardedAmountPositive(c, ks[0]);
      EmitAll(c, ks[1..]);
      var tail := Emit(c, ks[1..]);
      forall i | 1 <= i < |ks| ensures Emit(c, ks)[i] == Line(ks[i], Amount(c, ks[i])) {
        assert Emit(c, ks)[i] == tail[i - 1];
      }
    }
  }

  /** With a positive area, a rule gives one line exactly when its guard
      holds, and adds its amount to the total exactly then. */
  lemma StepMeasures(c: Inputs, k: Item)
    requires c.area > 0.0
    ensures |Step(c, k)| == if Guard(c, k) then 1 else 0
    ensures Sum(Step(c, k)) == if Guard(c, k) then Amount(c, k) else 0.0
  {
    if Guard(c, k) {
      GuardedAmountPositive(c, k);
    }
  }

  lemma SumOfThree(a: seq<Line>, b: seq<Line>, d: seq<Line>)
    ensures Sum(a + b + d) == Sum(a) + Sum(b) + Sum(d)
  {
    SumAppend(a, b);
    SumAppend(a + b, d);
  }

  lemma SumOfFour(a: seq<Line>, b: seq<Line>, d: seq<Line>, e: seq<Line>)
    ensures Sum(a + b + d + e) == Sum(a) + Sum(b) + Sum(d) + Sum(e)
  {
    SumOfThree(a, b, d);
    SumAppend(a + b + d, e);
  }

  /** The check-box blocks add the amounts of the ticked pairs. */
  lemma PreparationTotal(c: Inputs)
    requires c.area > 0.0
    ensures Sum(Step(c, Removal) + Step(c, Disposal) + Step(c, Sanding) + Step(c, Vacuuming)) ==
      (if c.oldFloor then Amount(c, Removal) + Amount(c, Disposal) else 0.0)
      + (if c.prep then Amount(c, Sanding) + Amount(c, Vacuuming) else 0.0)
  {
    SumOfFour(Step(c, Removal), Step(c, Disposal), Step(c, Sanding), Step(c, Vacuuming));
    StepMeasures(c, Removal);
    StepMeasures(c, Disposal);
    StepMeasures(c, Sanding);
    StepMeasures(c, Vacuuming);
  }

  /** Three consecutive rules: one unconditional, one guarded by a positive
      baseboard length, one by a positive number of strips. */
  lemma TripleTotal(c: Inputs, a: Item, b: Item, d: Item)
    requires c.area > 0.0
    requires Guard(c, a) && (Guard(c, b) <==> c.baseboard > 0.0) && (Guard(c, d) <==> c.transitions > 0)
    ensures Sum(Step(c, a) + Step(c, b) + Step(c, d)) ==
      Amount(c, a)
      + (if c.baseboard > 0.0 then Amount(c, b) else 0.0)
      + (if c.transitions > 0 then Amount(c, d) else 0.0)
  {
    SumOfThree(Step(c, a), Step(c, b), Step(c, d));
    StepMeasures(c, a);
    StepMeasures(c, b);
    StepMeasures(c, d);
  }

  /** The flat fees are always charged. */
  lemma FeesTotal(c: Inputs)
    requires c.area > 0.0
    ensures Sum(Step(c, Delivery) + Step(c, Handling)) == Amount(c, Delivery) + Amount(c, Handling)
  {
    SumAppend(Step(c, Delivery), Step(c, Handling));
    StepMeasures(c, Delivery);
    StepMeasures(c, Handling);
  }

  lemma SumOfGroups(a: seq<Line>, b: seq<Line>, d: seq<Line>, e: seq<Line>)
    ensures Sum(a + (b + (d + e))) == Sum(a) + (Sum(b) + (Sum(d) + Sum(e)))
  {
    SumAppend(a, b + (d + e));
    SumAppend(b, d + e);
    SumAppend(d, e);
  }

  /** The sum of the twelve steps, grouped as in `BreakdownInGroups`, rule
      by rule in terms of the amounts passed to `addLine`. */
  lemma GroupedTotal(c: Inputs)
    requires c.area > 0.0
    ensures Sum(
      (Step(c, Removal) + Step(c, Disposal) + Step(c, Sanding) + Step(c, Vacuuming)) +
      ((Step(c, Laying) + Step(c, BaseboardInstall) + Step(c, TransitionInstall)) +
      ((Step(c, Vinyl) + Step(c, BaseboardMaterial) + Step(c, TransitionMaterial)) +
      (Step(c, Delivery) + Step(c, Handling))))) ==
      ((if c.oldFloor then Amount(c, Removal) + Amount(c, Disposal) else 0.0)
       + (if c.prep then Amount(c, Sanding) + Amount(c, Vacuuming) else 0.0))
      + ((Amount(c, Laying)
          + (if c.baseboard > 0.0 then Amount(c, BaseboardInstall) else 0.0)
          + (if c.transitions > 0 then Amount(c, TransitionInstall) else 0.0))
      + ((Amount(c, Vinyl)
          + (if c.baseboard > 0.0 then Amount(c, BaseboardMaterial) else 0.0)
          + (if c.transitions > 0 then Amount(c, TransitionMaterial) else 0.0))
      + (Amount(c, Delivery) + Amount(c, Handling))))
  {
    SumOfGroups(Step(c, Removal) + Step(c, Disposal) + Step(c, Sanding) + Step(c, Vacuuming),
                Step(c, Laying) + Step(c, BaseboardInstall) + Step(c, TransitionInstall),
                Step(c, Vinyl) + Step(c, BaseboardMaterial) + Step(c, TransitionMaterial),
                Step(c, Delivery) + Step(c, Handling));
    PreparationTotal(c);
    TripleTotal(c, Laying, BaseboardInstall, TransitionInstall);
    TripleTotal(c, Vinyl, BaseboardMaterial, TransitionMaterial);
    FeesTotal(c);
  }

  /** The number of lines: the four unconditional ones, and two more for
      each check box ticked and for each positive quantity. */
  lemma LineCount(c: Inputs)
    ensures c.area <= 0.0 ==> |Breakdown(c)| == 0
    ensures c.area > 0.0 ==> |Breakdown(c)| == 4 + (if c.oldFloor then 2 else 0) + (if c.prep then 2 else 0)
                                                 + (if c.baseboard > 0.0 then 2 else 0) + (if c.transitions > 0 then 2 else 0)
    ensures c.area > 0.0 ==> 4 <= |Breakdown(c)| <= 12
  {
    if c.area > 0.0 {
      BreakdownInGroups(c);
      StepMeasures(c, Removal);
      StepMeasures(c, Disposal);
      StepMeasures(c, Sanding);
      StepMeasures(c, Vacuuming);
      StepMeasures(c, Laying);
      StepMeasures(c, BaseboardInstall);
      StepMeasures(c, TransitionInstall);
      StepMeasures(c, Vinyl);
      StepMeasures(c, BaseboardMaterial);
      StepMeasures(c, TransitionMaterial);
      StepMeasures(c, Delivery);
      StepMeasures(c, Handling);
    }
  }

  /** The rule-by-rule total with the unit prices spelled out and the
      per-m² rates collected. */
  lemma AmountsClosedForm(c: Inputs)
    ensures
      ((if c.oldFloor then Amount(c, Removal) + Amount(c, Disposal) else 0.0)
       + (if c.prep then Amount(c, Sanding) + Amount(c, Vacuuming) else 0.0))
      + ((Amount(c, Laying)
          + (if c.baseboard > 0.0 then Amount(c, BaseboardInstall) else 0.0)
          + (if c.transitions > 0 then Amount(c, TransitionInstall) else 0.0))
      + ((Amount(c, Vinyl)
          + (if c.baseboard > 0.0 then Amount(c, BaseboardMaterial) else 0.0)
          + (if c.transitions > 0 then Amount(c, TransitionMaterial) else 0.0))
      + (Amount(c, Delivery) + Amount(c, Handling)))) ==
      c.area * (LayingRate + VinylRate)
      + (if c.oldFloor then c.area * (RemovalRate + DisposalRate) else 0.0)
      + (if c.prep then c.area * (SandingRate + VacuumingRate) else 0.0)
      + (if c.baseboard > 0.0 then c.baseboard * (BaseboardInstallRate + BaseboardMaterialRate) else 0.0)
      + (if c.transitions > 0 then c.transitions as real * (TransitionInstallRate + TransitionMaterialRate) else 0.0)
      + DeliveryFee + HandlingFee
  {
  }

  /** The total in closed form: the per-m² rates that apply times the
      area, the baseboard and strip rates times their quantities, and the
      two flat fees; nothing at all without a positive area. */
  lemma TotalClosedForm(c: Inputs)
    ensures c.area <= 0.0 ==> Total(c) == 0.0
    ensures c.area > 0.0 ==> (Total(c) ==
      c.area * (LayingRate + VinylRate)
      + (if c.oldFloor then c.area * (RemovalRate + DisposalRate) else 0.0)
      + (if c.prep then c.area * (SandingRate + VacuumingRate) else 0.0)
      + (if c.baseboard > 0.0 then c.baseboard * (BaseboardInstallRate + BaseboardMaterialRate) else 0.0)
      + (if c.transitions > 0 then c.transitions as real * (TransitionInstallRate + TransitionMaterialRate) else 0.0)
      + DeliveryFee + HandlingFee)
  {
    if c.area > 0.0 {
      BreakdownInGroups(c);
      GroupedTotal(c);
      AmountsClosedForm(c);
    }
  }

  /** Rules splits into the removal pair, the preparation pair and the rest. */
  lemma RulesSplit()
    ensures Rules == [Removal, Disposal] + Rules[2..]
    ensures Rules[2..] == [Sanding, Vacuuming] + Rules[4..]
    ensures Rules[4..] == [Laying, BaseboardInstall, TransitionInstall, Vinyl, BaseboardMaterial,
                           TransitionMaterial, Delivery, Handling]
  {
  }

  lemma EmitPair(c: Inputs, a: Item, b: Item)
    ensures Emit(c, [a, b]) == Step(c, a) + Step(c, b)
  {
    assert [a, b][1..] == [b] && [b][1..] == [];
    assert Emit(c, [b]) == Step(c, b) + [];
  }

  /** A rule's step depends only on the quantities and on its own check box. */
  lemma StepAgree(c: Inputs, d: Inputs, k: Item)
    requires c.area == d.area && c.baseboard == d.baseboard && c.transitions == d.transitions
    requires k == Removal || k == Disposal ==> c.oldFloor == d.oldFloor
    requires k == Sanding || k == Vacuuming ==> c.prep == d.prep
    ensures Step(c, k) == Step(d, k)
  {
  }

  /** A check-box pair yields its two lines when ticked and nothing when not. */
  lemma PairSteps(c: Inputs, a: Item, b: Item)
    requires c.area > 0.0
    requires (a == Removal && b == Disposal) || (a == Sanding && b == Vacuuming)
    ensures Step(c, a) + Step(c, b) == if Guard(c, a) then [Line(a, Amount(c, a)), Line(b, Amount(c, b))] else []
  {
    if Guard(c, a) {
      GuardedAmountPositive(c, a);
      GuardedAmountPositive(c, b);
    }
  }

  /** The steps after the check-box blocks, grouped as the calculator adds
      them. */
  function LaterSteps(c: Inputs): seq<Line>
  {
    (Step(c, Laying) + Step(c, BaseboardInstall) + Step(c, TransitionInstall)) +
    ((Step(c, Vinyl) + Step(c, BaseboardMaterial) + Step(c, TransitionMaterial)) +
    (Step(c, Delivery) + Step(c, Handling)))
  }

  /** The later steps ignore both check boxes. */
  lemma LaterStepsIgnoreBoxes(c: Inputs, d: Inputs)
    requires c.area == d.area && c.baseboard == d.baseboard && c.transitions == d.transitions
    ensures LaterSteps(c) == LaterSteps(d)
  {
  }

  /** The breakdowns with and without "remove the old floor", as the
      removal lines (present only when ticked), the preparation lines and
      the later lines. */
  lemma OldFloorGroups(c: Inputs)
    requires c.area > 0.0
    ensures var off := c.(oldFloor := false);
      var q := Step(off, Sanding) + Step(off, Vacuuming);
      Breakdown(off) == q + LaterSteps(off) &&
      Breakdown(c.(oldFloor := true)) ==
        [Line(Removal, c.area * RemovalRate), Line(Disposal, c.area * DisposalRate)] + (q + LaterSteps(off))
  {
    var on, off := c.(oldFloor := true), c.(oldFloor := false);
    BreakdownInGroups(on);
    BreakdownInGroups(off);
    LaterStepsIgnoreBoxes(on, off);
    StepAgree(on, off, Sanding);
    StepAgree(on, off, Vacuuming);
    var q := Step(off, Sanding) + Step(off, Vacuuming);
    var pair := [Line(Removal, c.area * RemovalRate), Line(Disposal, c.area * DisposalRate)];
    assert Step(off, Removal) == [] && Step(off, Disposal) == [];
    assert [] + [] + Step(off, Sanding) + Step(off, Vacuuming) == q;
    GuardedAmountPositive(on, Removal);
    GuardedAmountPositive(on, Disposal);
    assert Amount(on, Removal) == c.area * RemovalRate && Amount(on, Disposal) == c.area * DisposalRate;
    assert Step(on, Removal) + Step(on, Disposal) == pair;
    Assoc(pair, Step(off, Sanding), Step(off, Vacuuming));
    Assoc(pair, q, LaterSteps(off));
  }

  /** Ticking "remove the old floor" puts exactly the removal and disposal
      lines in front of the breakdown and raises the total by their sum;
      unticking it takes exactly those two away. */
  lemma OldFloorToggle(c: Inputs)
    requires c.area > 0.0
    ensures Breakdown(c.(oldFloor := true)) ==
      [Line(Removal, c.area * RemovalRate), Line(Disposal, c.area * DisposalRate)] + Breakdown(c.(oldFloor := false))
    ensures Total(c.(oldFloor := true)) == Total(c.(oldFloor := false)) + c.area * RemovalRate + c.area * DisposalRate
  {
    OldFloorGroups(c);
    var pair := [Line(Removal, c.area * RemovalRate), Line(Disposal, c.area * DisposalRate)];
    var rest := Breakdown(c.(oldFloor := false));
    SumAppend(pair, rest);
    SumAppend([pair[0]], [pair[1]]);
    assert pair == [pair[0]] + [pair[1]];
  }

  /** The breakdowns with and without "prepare the subfloor", as the
      removal lines, the preparation lines (present only when ticked) and
      the later lines. */
  lemma PrepGroups(c: Inputs)
    requires c.area > 0.0
    ensures var off := c.(prep := false);
      var f := Step(off, Removal) + Step(off, Disposal);
      |f| == (if c.oldFloor then 2 else 0) &&
      Breakdown(off) == f + LaterSteps(off) &&
      Breakdown(c.(prep := true)) ==
        f + ([Line(Sanding, c.area * SandingRate), Line(Vacuuming, c.area * VacuumingRate)] + LaterSteps(off))
  {
    var on, off := c.(prep := true), c.(prep := false);
    BreakdownInGroups(on);
    BreakdownInGroups(off);
    LaterStepsIgnoreBoxes(on, off);
    PairSteps(off, Removal, Disposal);
    StepAgree(on, off, Removal);
    StepAgree(on, off, Disposal);
    var f := Step(off, Removal) + Step(off, Disposal);
    var p := [Line(Sanding, c.area * SandingRate), Line(Vacuuming, c.area * VacuumingRate)];
    assert Step(off, Sanding) == [] && Step(off, Vacuuming) == [];
    assert f + Step(off, Sanding) + Step(off, Vacuuming) == f;
    GuardedAmountPositive(on, Sanding);
    GuardedAmountPositive(on, Vacuuming);
    assert Amount(on, Sanding) == c.area * SandingRate && Amount(on, Vacuuming) == c.area * VacuumingRate;
    assert f + Step(on, Sanding) + Step(on, Vacuuming) == f + p;
    Assoc(f, p, LaterSteps(off));
  }

  /** Ticking "prepare the subfloor" inserts exactly the sanding and
      vacuuming lines right after the removal lines (at the front when the
      old floor stays) and raises the total by their sum. */
  lemma PrepToggle(c: Inputs)
    requires c.area > 0.0
    ensures var m := if c.oldFloor then 2 else 0;
      var off := Breakdown(c.(prep := false));
      m <= |off| &&
      Breakdown(c.(prep := true)) ==
        off[..m] + [Line(Sanding, c.area * SandingRate), Line(Vacuuming, c.area * VacuumingRate)] + off[m..]
    ensures Total(c.(prep := true)) == Total(c.(prep := false)) + c.area * SandingRate + c.area * VacuumingRate
  {
    var off := c.(prep := false);
    PrepGroups(c);
    var f := Step(off, Removal) + Step(off, Disposal);
    var t := LaterSteps(off);
    var p := [Line(Sanding, c.area * SandingRate), Line(Vacuuming, c.area * VacuumingRate)];
    var m := if c.oldFloor then 2 else 0;
    assert Breakdown(off)[..m] == f && Breakdown(off)[m..] == t;
    Assoc(f, p, t);
    SumAppend(f, t);
    SumAppend(f, p + t);
    SumAppend(p, t);
    SumAppend([p[0]], [p[1]]);
    assert p == [p[0]] + [p[1]];
  }

  /** Regrouping appended line lists. */
  lemma Assoc(a: seq<Line>, b: seq<Line>, d: seq<Line>)
    ensures a + (b + d) == (a + b) + d
  {
  }

  /** Regrouping a list followed by three appended pieces. */
  lemma Regroup3(l: seq<Line>, a: seq<Line>, b: seq<Line>, d: seq<Line>)
    ensures l + a + b + d == l + (a + b + d)
  {
  }

  /** Regrouping a list followed by four appended pieces. */
  lemma Regroup4(l: seq<Line>, a: seq<Line>, b: seq<Line>, d: seq<Line>, e: seq<Line>)
    ensures l + a + b + d + e == l + (a + b + d + e)
  {
  }

  /** The first three rules' steps, then the rest. */
  lemma EmitThree(c: Inputs, ks: seq<Item>)
    requires |ks| >= 3
    ensures Emit(c, ks) == (Step(c, ks[0]) + Step(c, ks[1]) + Step(c, ks[2])) + Emit(c, ks[3..])
  {
    var a, b, d, e := Step(c, ks[0]), Step(c, ks[1]), Step(c, ks[2]), Emit(c, ks[3..]);
    assert Emit(c, ks[2..]) == d + e by {
      assert ks[2..][0] == ks[2] && ks[2..][1..] == ks[3..];
    }
    assert Emit(c, ks[1..]) == b + Emit(c, ks[2..]) by {
      assert ks[1..][0] == ks[1] && ks[1..][1..] == ks[2..];
    }
    assert Emit(c, ks) == a + (b + (d + e));
    Assoc(b, d, e);
    Assoc(a, b + d, e);
    Assoc(a, b, d);
  }

  /** The first four rules' steps, then the rest. */
  lemma EmitFour(c: Inputs, ks: seq<Item>)
    requires |ks| >= 4
    ensures Emit(c, ks) == (Step(c, ks[0]) + Step(c, ks[1]) + Step(c, ks[2]) + Step(c, ks[3])) + Emit(c, ks[4..])
  {
    EmitThree(c, ks[1..]);
    assert ks[1..][3..] == ks[4..];
    var a, b, d, f, e := Step(c, ks[0]), Step(c, ks[1]), Step(c, ks[2]), Step(c, ks[3]), Emit(c, ks[4..]);
    assert Emit(c, ks) == a + ((b + d + f) + e);
    Assoc(a, b + d + f, e);
    Assoc(a, b + d, f);
    Assoc(a, b, d);
  }

  /** With a positive area, the breakdown is the twelve rule steps in
      order, grouped as the calculator adds them: the check-box blocks, the
      labour lines, the material lines and the fees. */
  lemma BreakdownInGroups(c: Inputs)
    requires c.area > 0.0
    ensures Breakdown(c) ==
      (Step(c, Removal) + Step(c, Disposal) + Step(c, Sanding) + Step(c, Vacuuming)) +
      ((Step(c, Laying) + Step(c, BaseboardInstall) + Step(c, TransitionInstall)) +
      ((Step(c, Vinyl) + Step(c, BaseboardMaterial) + Step(c, TransitionMaterial)) +
      (Step(c, Delivery) + Step(c, Handling))))
  {
    var r := Rules;
    RulesSplit();
    EmitFour(c, r);
    EmitThree(c, r[4..]);
    EmitThree(c, r[4..][3..]);
    assert r[4..][3..][3..] == [Delivery, Handling];
    EmitPair(c, Delivery, Handling);
  }

  /** A larger floor area, everything else unchanged, never lowers the
      total. */
  lemma TotalMonotoneInArea(c: Inputs, area': real)
    requires c.area <= area'
    ensures Total(c) <= Total(c.(area := area'))
  {
    TotalClosedForm(c);
    TotalClosedForm(c.(area := area'));
  }

  /** The minimal estimate: a positive area, no box ticked, no baseboard and
      no strips gives laying, vinyl, delivery and handling, nothing else. */
  lemma BaseScenario(c: Inputs)
    requires c.area > 0.0 && !c.oldFloor && !c.prep && c.baseboard <= 0.0 && c.transitions <= 0
    ensures Breakdown(c) == [Line(Laying, c.area * 240.0), Line(Vinyl, c.area * 649.0), Line(Delivery, 600.0), Line(Handling, 900.0)]
    ensures Total(c) == c.area * 240.0 + c.area * 649.0 + 600.0 + 900.0
  {
    BreakdownInGroups(c);
    GuardedAmountPositive(c, Laying);
    GuardedAmountPositive(c, Vinyl);
    GuardedAmountPositive(c, Delivery);
    GuardedAmountPositive(c, Handling);
    var laying, vinyl, fees := [Line(Laying, c.area * 240.0)], [Line(Vinyl, c.area * 649.0)], [Line(Delivery, 600.0), Line(Handling, 900.0)];
    assert Amount(c, Laying) == c.area * 240.0 && Amount(c, Vinyl) == c.area * 649.0;
    assert Step(c, BaseboardInstall) == [] && Step(c, TransitionInstall) == [];
    assert Step(c, BaseboardMaterial) == [] && Step(c, TransitionMaterial) == [];
    assert Step(c, Removal) + Step(c, Disposal) + Step(c, Sanding) + Step(c, Vacuuming) == [];
    assert Step(c, Laying) + Step(c, BaseboardInstall) + Step(c, TransitionInstall) == laying;
    assert Step(c, Vinyl) + Step(c, BaseboardMaterial) + Step(c, TransitionMaterial) == vinyl;
    assert Step(c, Delivery) + Step(c, Handling) == fees;
    assert Breakdown(c) == [] + (laying + (vinyl + fees));
    TotalClosedForm(c);
  }

  /** The full estimate for 20 m², 5 m of baseboard, 2 strips and both
      boxes ticked: all twelve categories, in rule order, 26 545 Kč. */
  lemma FullScenario()
    ensures var c := Inputs(20.0, 5.0, 2, true, true);
      Items(Breakdown(c)) == Rules && Total(c) == 26545.0
  {
    var c := Inputs(20.0, 5.0, 2, true, true);
    EmitAll(c, Rules);
    TotalClosedForm(c);
  }
}
