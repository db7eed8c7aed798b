/** Sizing is sound and optimal: what it returns is admissible, no tier admits more, and when it
    finds nothing there is nothing to find. */
module TierSizingTheorems {
  import opened Common
  import opened RiskDecimal
  import opened TierSizing
  import Exposure

  lemma {:induction false} MulMonotone(x: real, y: real, c: real)
    requires x <= y && c >= 0.0
    ensures x * c <= y * c
  {
    MultiplyBoth(x, y, c);
  }

  // ------------------------------------------------- what each ceiling means

  lemma {:induction false} PositiveUnits(r: Request)
    requires Acceptable(r)
    ensures Unit(r) > 0.0 && UnitInr(r) > 0.0
  {
    PositiveProduct(r.entry, r.multiplier);
    PositiveProduct(r.rateInrPerUsdt, Unit(r));
  }

  lemma {:induction false} InrParts(r: Request, cap: real, sd: Digits)
    requires QuantityFromInr(r, cap, sd).Exact?
    ensures QuantityFromInr(r, cap, sd) == FloorRatio(cap, UnitInr(r), r.quantityIncrement, sd)
  {
    var p := Product2(r.rateInrPerUsdt, Unit(r), sd);
    assert p.Exact?;
    assert p.value == UnitInr(r);
  }

  /** A floored cap bounds an aligned quantity exactly as the cap itself bounds its notional. */
  lemma {:induction false} InrCeiling(r: Request, cap: real, sd: Digits, x: real)
    requires QuantityFromInr(r, cap, sd).Exact? && Aligned(x, r.quantityIncrement)
    ensures x <= QuantityFromInr(r, cap, sd).value <==> NotionalInr(r, x) <= cap
  {
    InrParts(r, cap, sd);
    hide QuantityFromInr, UnitInr, FloorRatio, Aligned;
    FloorRatioIsOptimal(cap, UnitInr(r), r.quantityIncrement, sd);
    assert x * UnitInr(r) <= cap <==> x <= QuantityFromInr(r, cap, sd).value;
  }

  lemma {:induction false} UsdtCeiling(r: Request, cap: real, sd: Digits, x: real)
    requires QuantityFromUsdt(r, cap, sd).Exact? && Aligned(x, r.quantityIncrement)
    ensures x <= QuantityFromUsdt(r, cap, sd).value <==> NotionalUsdt(r, x) <= cap
    ensures Aligned(QuantityFromUsdt(r, cap, sd).value, r.quantityIncrement)
    ensures NotionalUsdt(r, QuantityFromUsdt(r, cap, sd).value) <= cap
  {
    hide Unit, FloorRatio, Aligned;
    FloorRatioIsOptimal(cap, Unit(r), r.quantityIncrement, sd);
    assert x * Unit(r) <= cap <==> x <= QuantityFromUsdt(r, cap, sd).value;
  }

  /** Aligned quantities are at least one increment apart. */
  lemma {:induction false} OneStepBelow(x: real, y: real, increment: real)
    requires increment > 0.0 && Aligned(x, increment) && Aligned(y, increment) && x < y
    ensures x <= y - increment
  {
    var k: int :| x == Steps(k, increment);
    var l: int :| y == Steps(l, increment);
    StepsOrdered(l, k, increment);
    StepsOrdered(k, l - 1, increment);
    StepsDiffer(l, increment);
  }

  lemma {:induction false} StepsDiffer(l: int, increment: real)
    ensures Steps(l - 1, increment) == Steps(l, increment) - increment
  {
  }

  predicate TierSane(t: Tier) {
    t.lower >= 0.0 && (t.upper.Some? ==> t.lower < t.upper.value)
  }

  lemma {:induction false} TierUpperParts(r: Request, t: Tier, sd: Digits)
    requires TierUpper(r, t, sd).Exact? && t.upper.Some?
    ensures QuantityFromUsdt(r, t.upper.value, sd).Exact?
    ensures var upper := QuantityFromUsdt(r, t.upper.value, sd).value;
            TierUpper(r, t, sd).value ==
            Some(if !t.upperInclusive && NotionalUsdt(r, upper) == t.upper.value then Clamped(upper - r.quantityIncrement) else upper)
  {
    hide QuantityFromUsdt, Unit, CheckedProduct;
    if !t.upperInclusive {
      var upper := QuantityFromUsdt(r, t.upper.value, sd).value;
      assert Product2(upper, Unit(r), sd).value == NotionalUsdt(r, upper);
    }
  }

  lemma {:induction false} TierCeiling(r: Request, t: Tier, sd: Digits, x: real)
    requires Acceptable(r) && Aligned(x, r.quantityIncrement) && TierSane(t) && TierUpper(r, t, sd).Exact?
    ensures t.upper.Some? <==> TierUpper(r, t, sd).value.Some?
    ensures t.upper.Some? ==> (x <= TierUpper(r, t, sd).value.value <==> BelowUpper(NotionalUsdt(r, x), t))
  {
    if t.upper.Some? {
      PositiveUnits(r);
      TierUpperParts(r, t, sd);
      assert r.quantityIncrement > 0.0;
      hide Aligned, Acceptable, QuantityFromUsdt, Unit, TierUpper, NotionalUsdt, Clamped;
      UsdtCeiling(r, t.upper.value, sd, x);
      if !t.upperInclusive {
        ExclusiveBound(r, QuantityFromUsdt(r, t.upper.value, sd).value, x, t.upper.value);
      }
    }
  }

  /** Lowering an exactly hit bound by one increment makes it exclusive. */
  lemma {:induction false} ExclusiveBound(r: Request, upper: real, x: real, cap: real)
    requires r.quantityIncrement > 0.0 && Unit(r) > 0.0 && cap > 0.0
    requires Aligned(upper, r.quantityIncrement) && Aligned(x, r.quantityIncrement)
    requires x <= upper <==> NotionalUsdt(r, x) <= cap
    requires NotionalUsdt(r, upper) <= cap
    ensures var bound := if NotionalUsdt(r, upper) == cap then Clamped(upper - r.quantityIncrement) else upper;
            x <= bound <==> NotionalUsdt(r, x) < cap
  {
    var unit := Unit(r);
    if upper * unit == cap {
      PositiveFactor(upper, unit);
      AtLeastOneStep(upper, r.quantityIncrement);
      if x < upper {
        OneStepBelow(x, upper, r.quantityIncrement);
        StrictlyMultiplyBoth(x, upper, unit);
      } else {
        MulMonotone(upper, x, unit);
      }
    } else if x <= upper {
      MulMonotone(x, upper, unit);
    }
  }

  lemma {:induction false} PositiveFactor(x: real, c: real)
    requires c > 0.0 && x * c > 0.0
    ensures x > 0.0
  {
    if x <= 0.0 {
      NonPositiveProduct(x, c);
    }
  }

  lemma {:induction false} NonPositiveProduct(x: real, c: real)
    requires x <= 0.0 && c > 0.0
    ensures x * c <= 0.0
  {
    MulMonotone(x, 0.0, c);
    assert 0.0 * c == 0.0;
  }

  lemma {:induction false} AtLeastOneStep(upper: real, increment: real)
    requires increment > 0.0 && Aligned(upper, increment) && upper > 0.0
    ensures upper >= increment
  {
    assert 0.0 == Steps(0, increment);
    OneStepBelow(0.0, upper, increment);
  }

  // ---------------------------------------------------------- one whole tier

  /** The ceilings with negative headrooms raised to zero, as the source clamps them. */
  predicate WithinClamped(r: Request, t: Tier, q: real) {
    && StopRisk(r, q) <= RiskBudget(r)
    && q <= r.maxQuantity && (r.maxNotional.Some? ==> NotionalUsdt(r, q) <= r.maxNotional.value)
    && NotionalInr(r, q) <= r.maxNotionalPerTradeInr
    && NotionalInr(r, q) <= Clamped(r.globalHeadroomInr) && NotionalInr(r, q) <= Clamped(r.pairHeadroomInr)
    && NotionalInr(r, q) <= Clamped(r.strategyHeadroomInr)
    && NotionalInr(r, q) <= BuyingPower(r, t)
    && BelowUpper(NotionalUsdt(r, q), t)
  }

  ghost predicate RiskCeiling(r: Request, risk: real) {
    forall x :: Aligned(x, r.quantityIncrement) ==> (x <= risk <==> StopRisk(r, x) <= RiskBudget(r))
  }

  lemma {:induction false} LeastBounds(r: Request, c: Ceilings, x: real)
    ensures x <= LeastCeiling(r, c) <==>
              && x <= c.risk && x <= r.maxQuantity && x <= c.perTrade && x <= c.global && x <= c.pair && x <= c.strategy
              && (c.pairMax.Some? ==> x <= c.pairMax.value) && x <= c.margin && (c.tierUpper.Some? ==> x <= c.tierUpper.value)
  {
  }

  lemma {:induction false} CeilingsParts(r: Request, t: Tier, risk: real, sd: Digits)
    requires CeilingsOf(r, t, risk, sd).Exact?
    ensures var c := CeilingsOf(r, t, risk, sd).value;
            && c.risk == risk
            && QuantityFromInr(r, r.maxNotionalPerTradeInr, sd) == Exact(c.perTrade)
            && QuantityFromInr(r, Clamped(r.globalHeadroomInr), sd) == Exact(c.global)
            && QuantityFromInr(r, Clamped(r.pairHeadroomInr), sd) == Exact(c.pair)
            && QuantityFromInr(r, Clamped(r.strategyHeadroomInr), sd) == Exact(c.strategy)
            && (r.maxNotional.None? ==> c.pairMax.None?)
            && (r.maxNotional.Some? ==> c.pairMax.Some? && QuantityFromUsdt(r, r.maxNotional.value, sd) == Exact(c.pairMax.value))
            && QuantityFromInr(r, BuyingPower(r, t), sd) == Exact(c.margin)
            && TierUpper(r, t, sd) == Exact(c.tierUpper)
  {
    hide QuantityFromInr, QuantityFromUsdt, TierUpper, CheckedProduct, FinalLeverage;
    assert Product2(r.availableMarginInr, FinalLeverage(r, t), sd).value == BuyingPower(r, t);
  }

  lemma {:induction false} CeilingsBound(r: Request, t: Tier, risk: real, sd: Digits, x: real)
    requires Acceptable(r) && TierSane(t) && RiskCeiling(r, risk) && Aligned(x, r.quantityIncrement)
    requires CeilingsOf(r, t, risk, sd).Exact?
    ensures x <= LeastCeiling(r, CeilingsOf(r, t, risk, sd).value) <==> WithinClamped(r, t, x)
  {
    CeilingsParts(r, t, risk, sd);
    LeastBounds(r, CeilingsOf(r, t, risk, sd).value, x);
    hide CeilingsOf, LeastCeiling, Acceptable, Aligned, QuantityFromInr, QuantityFromUsdt, TierUpper, NotionalInr, NotionalUsdt, StopRisk, RiskBudget,
      BuyingPower, BelowUpper, TierSane, Clamped;
    InrCeiling(r, r.maxNotionalPerTradeInr, sd, x);
    InrCeiling(r, Clamped(r.globalHeadroomInr), sd, x);
    InrCeiling(r, Clamped(r.pairHeadroomInr), sd, x);
    InrCeiling(r, Clamped(r.strategyHeadroomInr), sd, x);
    InrCeiling(r, BuyingPower(r, t), sd, x);
    TierCeiling(r, t, sd, x);
    if r.maxNotional.Some? {
      UsdtCeiling(r, r.maxNotional.value, sd, x);
    }
    if t.upper.None? {
      NoUpper(NotionalUsdt(r, x), t);
    }
  }

  lemma {:induction false} NoUpper(notional: real, t: Tier)
    requires t.upper.None?
    ensures BelowUpper(notional, t)
  {
  }

  /** The floored minimum is the greatest aligned quantity within the clamped ceilings. */
  lemma {:induction false} QuantityIsGreatest(r: Request, t: Tier, risk: real, sd: Digits, q: real)
    requires Acceptable(r) && TierSane(t) && RiskCeiling(r, risk) && CeilingsOf(r, t, risk, sd).Exact?
    requires FloorRatio(LeastCeiling(r, CeilingsOf(r, t, risk, sd).value), 1.0, r.quantityIncrement, sd) == Exact(q)
    ensures Aligned(q, r.quantityIncrement)
    ensures forall x :: Aligned(x, r.quantityIncrement) ==> (x <= q <==> WithinClamped(r, t, x))
  {
    hide CeilingsOf, LeastCeiling, WithinClamped, Aligned, FloorRatio, Acceptable, RiskCeiling;
    FloorIsGreatestBelow(LeastCeiling(r, CeilingsOf(r, t, risk, sd).value), r.quantityIncrement, sd, q);
    forall x | Aligned(x, r.quantityIncrement) ensures x <= q <==> WithinClamped(r, t, x) {
      CeilingsBound(r, t, risk, sd, x);
    }
  }

  lemma {:induction false} FloorIsGreatestBelow(least: real, increment: real, sd: Digits, q: real)
    requires FloorRatio(least, 1.0, increment, sd) == Exact(q)
    ensures Aligned(q, increment) && forall x :: Aligned(x, increment) ==> (x <= q <==> x <= least)
  {
    FloorRatioIsOptimal(least, 1.0, increment, sd);
    hide FloorRatio, Aligned;
    forall x | Aligned(x, increment) ensures x <= q <==> x <= least {
      assert x * 1.0 == x;
    }
  }

  // ------------------------------------------------ the verdict on one tier

  /** What a verdict must mean for a reader of the policy. */
  ghost predicate Optimal(r: Request, t: Tier, v: TierVerdict) {
    match v
    case Good(p) =>
      && p.tier == t && p.leverage == FinalLeverage(r, t) && Admissible(r, t, p.quantity)
      && forall x :: Admissible(r, t, x) ==> x <= p.quantity
    case Bad(_) => forall x :: !Admissible(r, t, x)
  }

  lemma {:induction false} AdmissibleIsClamped(r: Request, t: Tier, x: real)
    requires WithinCeilings(r, t, x)
    ensures WithinClamped(r, t, x)
  {
    hide NotionalInr, NotionalUsdt, StopRisk, RiskBudget, BuyingPower, BelowUpper;
  }

  lemma {:induction false} NotionalsGrow(r: Request, x: real, y: real)
    requires Acceptable(r) && x <= y
    ensures NotionalUsdt(r, x) <= NotionalUsdt(r, y) && NotionalInr(r, x) <= NotionalInr(r, y)
  {
    PositiveUnits(r);
    MulMonotone(x, y, Unit(r));
    MulMonotone(x, y, UnitInr(r));
  }

  lemma {:induction false} NotionalNonNegative(r: Request, x: real)
    requires Acceptable(r) && x >= 0.0
    ensures NotionalInr(r, x) >= 0.0 && NotionalUsdt(r, x) >= 0.0
  {
    NotionalsGrow(r, 0.0, x);
    assert NotionalInr(r, 0.0) == 0.0 && NotionalUsdt(r, 0.0) == 0.0;
  }

  /** The verdict in terms of the quantity `q` alone. */
  predicate FloorsFail(r: Request, q: real) {
    q < MinimumQuantity(r) || NotionalUsdt(r, q) < r.minNotional
  }

  predicate ChecksFail(r: Request, t: Tier, risk: real, q: real) {
    || !InTier(NotionalUsdt(r, q), t) || q > risk || q > r.maxQuantity
    || (r.maxNotional.Some? && NotionalUsdt(r, q) > r.maxNotional.value) || NotionalInr(r, q) > r.maxNotionalPerTradeInr
    || NotionalInr(r, q) > r.globalHeadroomInr || NotionalInr(r, q) > r.pairHeadroomInr || NotionalInr(r, q) > r.strategyHeadroomInr
    || NotionalInr(r, q) > BuyingPower(r, t)
  }

  lemma {:induction false} NotionalsAgree(r: Request, q: real)
    ensures NotionalUsdt(r, q) * r.rateInrPerUsdt == NotionalInr(r, q)
  {
    Associate(q, Unit(r), r.rateInrPerUsdt);
  }

  lemma {:induction false} VerdictParts(r: Request, t: Tier, risk: real, sd: Digits) returns (q: real)
    requires TryTier(r, t, risk, sd).Exact?
    ensures CeilingsOf(r, t, risk, sd).Exact?
    ensures FloorRatio(LeastCeiling(r, CeilingsOf(r, t, risk, sd).value), 1.0, r.quantityIncrement, sd) == Exact(q)
    ensures var v := TryTier(r, t, risk, sd).value;
            && (FloorsFail(r, q) || ChecksFail(r, t, risk, q) <==> v.Bad?)
            && (v.Good? ==> v.position == Feasible(q, FinalLeverage(r, t), t))
  {
    hide CeilingsOf, LeastCeiling, FloorRatio, CheckedProduct, FinalLeverage, InTier, MinimumQuantity;
    q := FloorRatio(LeastCeiling(r, CeilingsOf(r, t, risk, sd).value), 1.0, r.quantityIncrement, sd).value;
    NotionalsAgree(r, q);
    assert Product2(q, Unit(r), sd).value == NotionalUsdt(r, q);
    assert Product2(NotionalUsdt(r, q), r.rateInrPerUsdt, sd).value == NotionalInr(r, q);
    var p := Product2(r.availableMarginInr, FinalLeverage(r, t), sd);
    assert p.Exact? ==> p.value == BuyingPower(r, t);
    hide NotionalUsdt, NotionalInr, BuyingPower, Unit;
  }

  lemma {:induction false} TierIsOptimal(r: Request, t: Tier, risk: real, sd: Digits)
    requires Acceptable(r) && TierSane(t) && RiskCeiling(r, risk) && TryTier(r, t, risk, sd).Exact?
    ensures Optimal(r, t, TryTier(r, t, risk, sd).value)
  {
    var q := VerdictParts(r, t, risk, sd);
    QuantityIsGreatest(r, t, risk, sd, q);
    assert r.quantityIncrement > 0.0 && MinimumQuantity(r) >= 0.0;
    hide TryTier, CeilingsOf, LeastCeiling, FloorRatio, Acceptable, Aligned;
    assert q <= q && WithinClamped(r, t, q);
    assert q <= risk <==> StopRisk(r, q) <= RiskBudget(r);
    if FloorsFail(r, q) || ChecksFail(r, t, risk, q) {
      forall x ensures !Admissible(r, t, x) {
        if Admissible(r, t, x) {
          AdmissibleIsClamped(r, t, x);
          NothingAdmissible(r, t, risk, q, x);
        }
      }
    } else {
      GoodIsAdmissible(r, t, risk, q);
      forall x | Admissible(r, t, x) ensures x <= q {
        AdmissibleIsClamped(r, t, x);
      }
    }
  }

  lemma {:induction false} GoodIsAdmissible(r: Request, t: Tier, risk: real, q: real)
    requires Aligned(q, r.quantityIncrement) && WithinClamped(r, t, q) && !FloorsFail(r, q) && !ChecksFail(r, t, risk, q)
    ensures Admissible(r, t, q)
  {
    hide Aligned, NotionalInr, NotionalUsdt, StopRisk, RiskBudget, BuyingPower, BelowUpper, AboveLower, MinimumQuantity, Clamped;
  }

  /** If the greatest candidate fails a floor or a check, so does every smaller one. */
  lemma {:induction false} NothingAdmissible(r: Request, t: Tier, risk: real, q: real, x: real)
    requires Acceptable(r) && MinimumQuantity(r) >= 0.0 && WithinClamped(r, t, q) && q <= risk && x <= q
    requires FloorsFail(r, q) || ChecksFail(r, t, risk, q)
    ensures !Admissible(r, t, x)
  {
    NotionalsGrow(r, x, q);
    if x >= MinimumQuantity(r) {
      NotionalNonNegative(r, x);
    }
    hide Acceptable, Aligned, NotionalInr, NotionalUsdt, StopRisk, RiskBudget, BuyingPower, MinimumQuantity;
  }

  // -------------------------------------------------------------- all tiers

  ghost predicate SurveyOptimal(r: Request, tiers: seq<Tier>, s: Survey) {
    && (forall p <- s.feasible :: p.tier in tiers && Optimal(r, p.tier, Good(p)))
    && (forall t <- tiers :: forall x :: Admissible(r, t, x) ==> exists p <- s.feasible :: p.tier == t && x <= p.quantity)
  }

  lemma {:induction false} SurveyIsOptimal(r: Request, tiers: seq<Tier>, risk: real, sd: Digits)
    requires Acceptable(r) && RiskCeiling(r, risk) && (forall t <- tiers :: TierSane(t)) && SurveyTiers(r, tiers, risk, sd).Exact?
    ensures SurveyOptimal(r, tiers, SurveyTiers(r, tiers, risk, sd).value)
  {
    hide Acceptable, RiskCeiling, TierSane, TryTier, Admissible;
    if tiers != [] {
      var front, last := tiers[..|tiers| - 1], tiers[|tiers| - 1];
      SurveyIsOptimal(r, front, risk, sd);
      TierIsOptimal(r, last, risk, sd);
      SurveyGrows(r, front, last, SurveyTiers(r, front, risk, sd).value, TryTier(r, last, risk, sd).value);
      assert front + [last] == tiers;
    }
  }

  function Added(s: Survey, v: TierVerdict): Survey {
    match v
    case Good(p) => s.(feasible := s.feasible + [p])
    case Bad(cause) => s.(failures := s.failures + [cause])
  }

  lemma {:induction false} SurveyGrows(r: Request, tiers: seq<Tier>, t: Tier, s: Survey, v: TierVerdict)
    requires SurveyOptimal(r, tiers, s) && Optimal(r, t, v)
    ensures SurveyOptimal(r, tiers + [t], Added(s, v))
  {
    hide Admissible;
    var s' := Added(s, v);
    forall u, x | u in tiers + [t] && Admissible(r, u, x) ensures exists p <- s'.feasible :: p.tier == u && x <= p.quantity {
      if u in tiers {
        var p :| p in s.feasible && p.tier == u && x <= p.quantity;
        assert p in s'.feasible;
      } else {
        assert v.Good? && v.position in s'.feasible;
      }
    }
  }

  lemma {:induction false} BestIsBest(candidates: seq<Feasible>)
    requires candidates != []
    ensures Best(candidates) in candidates
    ensures forall p <- candidates :: !Better(p, Best(candidates))
  {
    if |candidates| > 1 {
      var front := candidates[..|candidates| - 1];
      BestIsBest(front);
      assert forall p <- candidates :: p in front || p == candidates[|candidates| - 1];
    }
  }

  lemma {:induction false} AllTiersSane(r: Request)
    requires Acceptable(r)
    ensures forall t <- r.tiers :: TierSane(t)
  {
    forall t | t in r.tiers ensures TierSane(t) {
      var k :| 0 <= k < |r.tiers| && r.tiers[k] == t;
      assert TierFits(r.tiers, k);
    }
  }

  lemma {:induction false} UnitLossIsPositive(r: Request)
    requires Acceptable(r)
    ensures UnitLoss(r) > 0.0
  {
    PositiveProduct(StopDistance(r), r.multiplier);
    PositiveProduct(StopDistance(r) * r.multiplier, r.rateInrPerUsdt);
  }

  /** How the pieces of an exact resolution fit together. */
  lemma {:induction false} ResolutionParts(r: Request, sd: Digits) returns (risk: real)
    requires ResolveUnchecked(r, sd).Exact? && Acceptable(r)
    ensures FloorRatio(RiskBudget(r), UnitLoss(r), r.quantityIncrement, sd) == Exact(risk)
    ensures SurveyTiers(r, r.tiers, risk, sd).Exact?
    ensures ResolveUnchecked(r, sd) == Conclude(r, SurveyTiers(r, r.tiers, risk, sd).value, sd)
  {
    UnitLossIsPositive(r);
    BudgetIsPositive(r);
    CheckedTerms(r, sd);
    hide UnitLoss, RiskBudget, CheckedBudget, CheckedUnitLoss, CheckedUnit, SurveyTiers, Conclude, FloorRatio, Acceptable;
    risk := FloorRatio(RiskBudget(r), UnitLoss(r), r.quantityIncrement, sd).value;
  }

  lemma {:induction false} CheckedTerms(r: Request, sd: Digits)
    ensures CheckedBudget(r, sd).Exact? ==> CheckedBudget(r, sd).value == RiskBudget(r)
    ensures CheckedUnitLoss(r, sd).Exact? ==> CheckedUnitLoss(r, sd).value == UnitLoss(r)
  {
    hide CheckedProduct, StopDistance;
  }

  lemma {:induction false} BudgetIsPositive(r: Request)
    requires Acceptable(r)
    ensures RiskBudget(r) > 0.0
  {
    PositiveProduct(r.equityInr, r.riskPercent);
  }

  lemma {:induction false} RiskIsCeiling(r: Request, risk: real, sd: Digits)
    requires FloorRatio(RiskBudget(r), UnitLoss(r), r.quantityIncrement, sd) == Exact(risk)
    ensures RiskCeiling(r, risk)
  {
    FloorRatioIsOptimal(RiskBudget(r), UnitLoss(r), r.quantityIncrement, sd);
    hide FloorRatio, Aligned, UnitLoss, RiskBudget;
  }

  /** The sizing theorem. A returned size is admissible at its tier; no tier admits a larger one, nor the same one at a
      higher leverage; and if no size is returned although the arithmetic stayed exact, no tier admits any. */
  lemma {:induction false} SizingIsOptimal(r: Request, sd: Digits)
    requires Acceptable(r) && ResolveUnchecked(r, sd).Exact?
    ensures var result := ResolveUnchecked(r, sd).value;
            match result
            case Sized(p, usdt, inr, risk) =>
              && p.tier in r.tiers && Admissible(r, p.tier, p.quantity) && p.leverage == FinalLeverage(r, p.tier)
              && usdt == NotionalUsdt(r, p.quantity) && inr == NotionalInr(r, p.quantity)
              && risk == StopRisk(r, p.quantity) && risk <= RiskBudget(r)
              && (forall t <- r.tiers :: forall x :: Admissible(r, t, x) ==>
                    x < p.quantity || (x == p.quantity && FinalLeverage(r, t) <= p.leverage))
            case Rejected(reason) =>
              && reason in {INSUFFICIENT_MARGIN, MIN_QUANTITY_NOT_MET, MIN_NOTIONAL_NOT_MET, NO_VALID_LEVERAGE_TIER}
              && (forall t <- r.tiers :: forall x :: !Admissible(r, t, x))
  {
    var risk := ResolutionParts(r, sd);
    RiskIsCeiling(r, risk, sd);
    AllTiersSane(r);
    SurveyIsOptimal(r, r.tiers, risk, sd);
    var s := SurveyTiers(r, r.tiers, risk, sd).value;
    hide ResolveUnchecked, SurveyTiers, Acceptable, RiskCeiling, TierSane, FloorRatio;
    ConclusionIsOptimal(r, s, sd);
  }

  lemma {:induction false} ConclusionIsOptimal(r: Request, s: Survey, sd: Digits)
    requires SurveyOptimal(r, r.tiers, s) && Conclude(r, s, sd).Exact?
    ensures match Conclude(r, s, sd).value
            case Sized(p, usdt, inr, risk) =>
              && p.tier in r.tiers && Admissible(r, p.tier, p.quantity) && p.leverage == FinalLeverage(r, p.tier)
              && usdt == NotionalUsdt(r, p.quantity) && inr == NotionalInr(r, p.quantity)
              && risk == StopRisk(r, p.quantity) && risk <= RiskBudget(r)
              && (forall t <- r.tiers :: forall x :: Admissible(r, t, x) ==>
                    x < p.quantity || (x == p.quantity && FinalLeverage(r, t) <= p.leverage))
            case Rejected(reason) =>
              && reason in {INSUFFICIENT_MARGIN, MIN_QUANTITY_NOT_MET, MIN_NOTIONAL_NOT_MET, NO_VALID_LEVERAGE_TIER}
              && (forall t <- r.tiers :: forall x :: !Admissible(r, t, x))
  {
    if s.feasible != [] {
      BestIsBest(s.feasible);
      var best := Best(s.feasible);
      NotionalsAgree(r, best.quantity);
      assert Admissible(r, best.tier, best.quantity);
      assert StopRisk(r, best.quantity) <= RiskBudget(r);
      ProductsOfBest(r, best.quantity, sd);
      hide NotionalUsdt, NotionalInr, StopRisk, RiskBudget, Unit, UnitLoss, Best, FinalLeverage, CheckedProduct, Admissible;
      forall t, x | t in r.tiers && Admissible(r, t, x)
        ensures x < best.quantity || (x == best.quantity && FinalLeverage(r, t) <= best.leverage)
      {
        var p :| p in s.feasible && p.tier == t && x <= p.quantity;
        assert !Better(p, best) && Optimal(r, p.tier, Good(p));
      }
    } else {
      hide Admissible;
    }
  }

  lemma {:induction false} ProductsOfBest(r: Request, q: real, sd: Digits)
    ensures Product2(q, Unit(r), sd).Exact? ==> Product2(q, Unit(r), sd).value == NotionalUsdt(r, q)
    ensures Product2(q, UnitLoss(r), sd).Exact? ==> Product2(q, UnitLoss(r), sd).value == StopRisk(r, q)
    ensures Product2(NotionalUsdt(r, q), r.rateInrPerUsdt, sd).Exact? ==>
              Product2(NotionalUsdt(r, q), r.rateInrPerUsdt, sd).value == NotionalInr(r, q)
  {
    NotionalsAgree(r, q);
  }

  // ------------------------------------------------------------ consequences

  /** A positive minimum of either kind keeps every returned size positive. */
  lemma {:induction false} PositiveMinimaSizePositively(r: Request, sd: Digits)
    requires Acceptable(r) && ResolveUnchecked(r, sd).Exact? && ResolveUnchecked(r, sd).value.Sized?
    requires MinimumQuantity(r) > 0.0 || r.minNotional > 0.0
    ensures ResolveUnchecked(r, sd).value.position.quantity > 0.0
    ensures ResolveUnchecked(r, sd).value.notionalInr > 0.0
  {
    hide ResolveUnchecked, Acceptable, Admissible, FinalLeverage, NotionalUsdt, NotionalInr, StopRisk, RiskBudget, MinimumQuantity;
    SizingIsOptimal(r, sd);
    var p := ResolveUnchecked(r, sd).value.position;
    PositiveQuantity(r, p.tier, p.quantity);
  }

  lemma {:induction false} PositiveQuantity(r: Request, t: Tier, q: real)
    requires Acceptable(r) && Admissible(r, t, q) && (MinimumQuantity(r) > 0.0 || r.minNotional > 0.0)
    ensures q > 0.0 && NotionalInr(r, q) > 0.0
  {
    PositiveUnits(r);
    hide Acceptable, Unit, UnitInr, Aligned, WithinCeilings;
    if r.minNotional > 0.0 {
      PositiveFactor(q, Unit(r));
    }
    PositiveProduct(q, UnitInr(r));
  }

  /** Without a positive minimum there is no such guarantee: when the global headroom is exactly used up, the sizing
      does not refuse, it returns a position of size zero. */
  lemma {:induction false} NoMinimaSizeNothing(r: Request, sd: Digits)
    requires Acceptable(r) && ResolveUnchecked(r, sd).Exact?
    requires MinimumQuantity(r) == 0.0 && r.minNotional <= 0.0 && r.globalHeadroomInr == 0.0
    requires r.pairHeadroomInr >= 0.0 && r.strategyHeadroomInr >= 0.0 && r.maxNotionalPerTradeInr >= 0.0
    requires BuyingPower(r, r.tiers[0]) >= 0.0 && (r.maxNotional.Some? ==> r.maxNotional.value >= 0.0)
    ensures ResolveUnchecked(r, sd).value.Sized? && ResolveUnchecked(r, sd).value.position.quantity == 0.0
  {
    FirstTier(r);
    ZeroIsAdmissible(r);
    hide ResolveUnchecked, Acceptable, Admissible, FinalLeverage, NotionalUsdt, NotionalInr, StopRisk, RiskBudget, MinimumQuantity, BuyingPower;
    SizingIsOptimal(r, sd);
    var result := ResolveUnchecked(r, sd).value;
    assert Admissible(r, r.tiers[0], 0.0);
    if result.Sized? {
      NoRoom(r, result.position.tier, result.position.quantity);
    }
  }

  lemma {:induction false} FirstTier(r: Request)
    requires Acceptable(r)
    ensures r.tiers != [] && r.tiers[0] in r.tiers
  {
  }

  lemma {:induction false} NoRoom(r: Request, t: Tier, q: real)
    requires Acceptable(r) && Admissible(r, t, q) && r.globalHeadroomInr == 0.0
    ensures q <= 0.0
  {
    PositiveUnits(r);
    hide Acceptable, Unit, UnitInr, Aligned, AboveFloors;
    if q > 0.0 {
      PositiveProduct(q, UnitInr(r));
    }
  }

  lemma {:induction false} ZeroIsAdmissible(r: Request)
    requires Acceptable(r) && MinimumQuantity(r) == 0.0 && r.minNotional <= 0.0
    requires r.globalHeadroomInr >= 0.0 && r.pairHeadroomInr >= 0.0 && r.strategyHeadroomInr >= 0.0 && r.maxNotionalPerTradeInr >= 0.0
    requires BuyingPower(r, r.tiers[0]) >= 0.0 && (r.maxNotional.Some? ==> r.maxNotional.value >= 0.0)
    ensures Admissible(r, r.tiers[0], 0.0)
  {
    assert TierFits(r.tiers, 0);
    BudgetIsPositive(r);
    assert Steps(0, r.quantityIncrement) == 0.0;
    assert NotionalUsdt(r, 0.0) == 0.0 && NotionalInr(r, 0.0) == 0.0 && StopRisk(r, 0.0) == 0.0;
    hide Unit, UnitInr, UnitLoss, NotionalUsdt, NotionalInr, StopRisk, RiskBudget, BuyingPower;
  }

  /** Room for every product of two numbers. */
  ghost predicate Ample(sd: Digits) {
    forall x :: 2 * sd(x) <= CONTEXT_DIGITS
  }

  function Unlimited(): (sd: Digits)
    ensures Ample(sd)
  {
    (x: real) => 0
  }

  lemma {:induction false} EveryProductFits(values: seq<real>, sd: Digits)
    requires Ample(sd)
    ensures ProductFits(values, sd)
  {
    if values != [] {
      EveryProductFits(values[..|values| - 1], sd);
      var front, last := Product(values[..|values| - 1]), values[|values| - 1];
      assert 2 * sd(front) <= CONTEXT_DIGITS && 2 * sd(last) <= CONTEXT_DIGITS;
    }
  }

  lemma {:induction false} EveryProductIsExact(sd: Digits)
    requires Ample(sd)
    ensures forall x, y :: Product2(x, y, sd).Exact?
    ensures forall x, y, z :: Product3(x, y, z, sd).Exact?
    ensures forall n, d, i :: d > 0.0 && i > 0.0 ==> FloorRatio(n, d, i, sd).Exact?
  {
    assert forall x :: 2 * sd(x) <= CONTEXT_DIGITS;
    forall values ensures CheckedProduct(values, sd).Exact? {
      EveryProductFits(values, sd);
    }
  }

  lemma {:induction false} TierResolves(r: Request, t: Tier, risk: real, sd: Digits)
    requires Acceptable(r) && Ample(sd)
    ensures TryTier(r, t, risk, sd).Exact?
  {
    EveryProductIsExact(sd);
    PositiveUnits(r);
    hide Product2, FloorRatio, Ample, Unit, FinalLeverage, LeastCeiling, InTier, MinimumQuantity;
    assert r.rateInrPerUsdt * Unit(r) > 0.0;
  }

  lemma {:induction false} TiersResolve(r: Request, tiers: seq<Tier>, risk: real, sd: Digits)
    requires Acceptable(r) && Ample(sd)
    ensures SurveyTiers(r, tiers, risk, sd).Exact?
  {
    hide TryTier, Acceptable, Ample;
    if tiers != [] {
      TiersResolve(r, tiers[..|tiers| - 1], risk, sd);
      TierResolves(r, tiers[|tiers| - 1], risk, sd);
    }
  }

  lemma {:induction false} EverythingResolves(r: Request, sd: Digits)
    requires Acceptable(r) && Ample(sd)
    ensures ResolveUnchecked(r, sd).Exact?
  {
    EveryProductIsExact(sd);
    UnitLossIsPositive(r);
    CheckedTerms(r, sd);
    hide Product2, Product3, FloorRatio, Ample, Acceptable, TryTier, UnitLoss, RiskBudget, SurveyTiers, Best, StopDistance;
    forall risk ensures SurveyTiers(r, r.tiers, risk, sd).Exact? {
      TiersResolve(r, r.tiers, risk, sd);
    }
  }

  /** Instrument limits under which every returned size is positive. */
  ghost predicate SizesPositively(minQuantity: real, minTradeSize: real, minNotional: real) {
    forall r: Request, sd: Digits ::
      r.minQuantity == minQuantity && r.minTradeSize == minTradeSize && r.minNotional == minNotional && SizedRequest(r, sd)
      ==> ResolveUnchecked(r, sd).value.position.quantity > 0.0
  }

  predicate SizedRequest(r: Request, sd: Digits) {
    Acceptable(r) && ResolveUnchecked(r, sd).Exact? && ResolveUnchecked(r, sd).value.Sized?
  }

  /** A request whose headroom is used up. */
  function Exhausted(minQuantity: real, minTradeSize: real, minNotional: real): Request {
    Request(LONG, 100.0, 50.0, 0.0, 1000.0, 1.0, 1.0, 1.0, 1.0, 1.0, 1.0, 1.0, minQuantity, minTradeSize, 1.0, minNotional, None,
            1.0, 0.0, 0.0, 0.0, [Tier(0.0, true, None, false, 1.0)], 1.0, 1.0, 1.0, 1.0, None, None, None)
  }

  /** Every returned size is positive exactly if the instrument has a positive minimum quantity, trade size or notional. */
  lemma {:induction false} SizesPositivelyExactly(minQuantity: real, minTradeSize: real, minNotional: real)
    requires minQuantity >= 0.0
    ensures SizesPositively(minQuantity, minTradeSize, minNotional) <==> minQuantity > 0.0 || minTradeSize > 0.0 || minNotional > 0.0
  {
    hide ResolveUnchecked, Acceptable;
    if minQuantity > 0.0 || minTradeSize > 0.0 || minNotional > 0.0 {
      forall r: Request, sd: Digits |
        r.minQuantity == minQuantity && r.minTradeSize == minTradeSize && r.minNotional == minNotional && SizedRequest(r, sd)
        ensures ResolveUnchecked(r, sd).value.position.quantity > 0.0 {
        PositiveMinimaSizePositively(r, sd);
      }
    } else {
      ExhaustedSizesNothing(minQuantity, minTradeSize, minNotional);
      assert SizedRequest(Exhausted(minQuantity, minTradeSize, minNotional), Unlimited());
    }
  }

  lemma {:induction false} ExhaustedSizesNothing(minQuantity: real, minTradeSize: real, minNotional: real)
    requires minQuantity == 0.0 && minTradeSize <= 0.0 && minNotional <= 0.0
    ensures var r := Exhausted(minQuantity, minTradeSize, minNotional);
            SizedRequest(r, Unlimited()) && ResolveUnchecked(r, Unlimited()).value.position.quantity == 0.0
  {
    var r := Exhausted(minQuantity, minTradeSize, minNotional);
    ExhaustedIsAcceptable(minQuantity, minTradeSize, minNotional);
    EverythingResolves(r, Unlimited());
    hide ResolveUnchecked, Acceptable;
    assert BuyingPower(r, r.tiers[0]) == 1.0;
    NoMinimaSizeNothing(r, Unlimited());
  }

  lemma {:induction false} ExhaustedIsAcceptable(minQuantity: real, minTradeSize: real, minNotional: real)
    requires minQuantity == 0.0
    ensures Acceptable(Exhausted(minQuantity, minTradeSize, minNotional))
  {
    assert (100.0 / 1.0).Floor == 100 && (50.0 / 1.0).Floor == 50;
  }

  // ------------------------------------------------------------------ margin

  /** Division rounded up: the least number of the context that is not below the quotient. */
  ghost predicate DividedUp(x: real, y: real, quotient: real, sd: Digits)
    requires y != 0.0
  {
    && sd(quotient) <= CONTEXT_DIGITS && quotient >= x / y
    && forall z :: sd(z) <= CONTEXT_DIGITS && z >= x / y ==> quotient <= z
  }

  /** The estimated initial margin of a returned size, although rounded up, never exceeds the available margin. */
  lemma {:induction false} MarginIsAvailable(r: Request, sd: Digits, margin: real)
    requires Acceptable(r) && ResolveUnchecked(r, sd).Exact? && ResolveUnchecked(r, sd).value.Sized?
    requires var result := ResolveUnchecked(r, sd).value;
             result.position.leverage > 0.0 && DividedUp(result.notionalInr, result.position.leverage, margin, sd)
    ensures margin <= r.availableMarginInr
  {
    hide ResolveUnchecked, Acceptable, NotionalInr, NotionalUsdt, StopRisk, RiskBudget, FinalLeverage, Admissible, BuyingPower;
    var p := ResolveUnchecked(r, sd).value.position;
    SizingIsOptimal(r, sd);
    MarginInContext(r, sd);
    AdmissibleIsBought(r, p.tier, p.quantity, p.leverage);
  }

  lemma {:induction false} AdmissibleIsBought(r: Request, t: Tier, q: real, leverage: real)
    requires Admissible(r, t, q) && leverage == FinalLeverage(r, t) && leverage > 0.0
    ensures NotionalInr(r, q) / leverage <= r.availableMarginInr
  {
    hide NotionalInr, FinalLeverage, Aligned, StopRisk, NotionalUsdt, BelowUpper, AboveFloors;
    Divides(NotionalInr(r, q), r.availableMarginInr, leverage);
  }

  lemma {:induction false} Divides(x: real, a: real, y: real)
    requires y > 0.0 && x <= a * y
    ensures x / y <= a
  {
    var q := x / y;
    assert x == q * y;
    if q > a {
      StrictlyMultiplyBoth(a, q, y);
    }
  }

  /** The margin is itself a number of the context, or its product with the leverage would have failed. */
  lemma {:induction false} MarginInContext(r: Request, sd: Digits)
    requires Acceptable(r) && ResolveUnchecked(r, sd).Exact?
    ensures sd(r.availableMarginInr) <= CONTEXT_DIGITS
  {
    var risk := ResolutionParts(r, sd);
    hide ResolveUnchecked, TryTier, Conclude, FloorRatio;
    FirstTier(r);
    var last := r.tiers[|r.tiers| - 1];
    assert TryTier(r, last, risk, sd).Exact?;
    TierUsesMargin(r, last, risk, sd);
  }

  lemma {:induction false} TierUsesMargin(r: Request, t: Tier, risk: real, sd: Digits)
    requires TryTier(r, t, risk, sd).Exact?
    ensures sd(r.availableMarginInr) <= CONTEXT_DIGITS
  {
    hide ProductFits, FloorRatio, FinalLeverage, QuantityFromInr, TierUpper, PairMax, LeastCeiling, InTier;
    assert Product2(r.availableMarginInr, FinalLeverage(r, t), sd).Exact?;
    assert r.availableMarginInr in [r.availableMarginInr, FinalLeverage(r, t)];
  }

  /** Sizing and exposure agree: a position sized within the headroom of a snapshot fits the snapshot's caps. */
  lemma {:induction false} SizedPositionFits(r: Request, sd: Digits, s: Exposure.Snapshot, c: Exposure.Candidate, policy: Exposure.Policy)
    requires Acceptable(r) && ResolveUnchecked(r, sd).Exact? && ResolveUnchecked(r, sd).value.Sized?
    requires Exposure.HeadroomFor(s, c, policy) == Some(Exposure.Headroom(r.globalHeadroomInr, r.pairHeadroomInr, r.strategyHeadroomInr))
    requires MinimumQuantity(r) > 0.0 || r.minNotional > 0.0
    requires s.pending.KNOWN? && Exposure.RoomForOne(s, policy)
    ensures Exposure.Fits(s, c, policy, ResolveUnchecked(r, sd).value.notionalInr)
  {
    hide Exposure.HeadroomFor, Exposure.Coherent, Exposure.Fits;
    Exposure.HeadroomIsExact(s, c, policy, 0.0);
    SizingIsOptimal(r, sd);
    PositiveMinimaSizePositively(r, sd);
    hide ResolveUnchecked, Acceptable;
    Exposure.HeadroomIsTheBound(s, c, policy, ResolveUnchecked(r, sd).value.notionalInr);
  }
}
