/** What sizing promises a reader of the policy, in terms of the request's own numbers: which sizes are permitted at a
    tier, that the best of them is returned, at which leverage, and why nothing is returned when nothing is. */
module SizingPolicy {
  import opened Common
  import opened RiskDecimal
  import opened TierSizing
  import opened TierSizingTheorems

  // ------------------------------------------------------------- the policy

  /** One of the leverage limits that apply at a tier. */
  predicate IsLimit(r: Request, t: Tier, limit: real) {
    || limit == t.maxLeverage || limit == r.modeLeverage || limit == r.pairLeverage || limit == r.globalLeverage
    || r.requestedLeverage == Some(limit) || r.overrideLeverage == Some(limit) || r.accountLeverage == Some(limit)
  }

  ghost predicate LeastLimit(r: Request, t: Tier, leverage: real) {
    IsLimit(r, t, leverage) && forall limit :: IsLimit(r, t, limit) ==> leverage <= limit
  }

  /** What a quantity is worth, and what it loses when it is stopped out. */
  function WorthUsdt(r: Request, q: real): real {
    q * (r.entry * r.multiplier)
  }

  function WorthInr(r: Request, q: real): real {
    q * (r.rateInrPerUsdt * (r.entry * r.multiplier))
  }

  function Loss(r: Request, q: real): real {
    q * ((if r.side == LONG then r.entry - r.stop else r.stop - r.entry) * r.multiplier * r.rateInrPerUsdt)
  }

  predicate WholeIncrements(r: Request, q: real) {
    r.quantityIncrement > 0.0 && (q / r.quantityIncrement).Floor as real * r.quantityIncrement == q
  }

  predicate Affordable(r: Request, q: real, leverage: real) {
    WorthInr(r, q) <= r.availableMarginInr * leverage
  }

  /** Every upper bound but the margin, for given headrooms. */
  predicate BelowCeilings(r: Request, t: Tier, q: real, global: real, pair: real, strategy: real) {
    && Loss(r, q) <= r.equityInr * r.riskPercent / 100.0
    && q <= r.maxQuantity && (r.maxNotional.Some? ==> WorthUsdt(r, q) <= r.maxNotional.value)
    && WorthInr(r, q) <= r.maxNotionalPerTradeInr && WorthInr(r, q) <= global && WorthInr(r, q) <= pair && WorthInr(r, q) <= strategy
    && (t.upper.Some? ==> WorthUsdt(r, q) <= t.upper.value && (!t.upperInclusive ==> WorthUsdt(r, q) != t.upper.value))
  }

  predicate MeetsMinima(r: Request, t: Tier, q: real) {
    && r.minQuantity <= q && r.minTradeSize <= q && r.minNotional <= WorthUsdt(r, q)
    && t.lower <= WorthUsdt(r, q) && (!t.lowerInclusive ==> t.lower != WorthUsdt(r, q))
  }

  predicate Permitted(r: Request, t: Tier, q: real, leverage: real) {
    && WholeIncrements(r, q) && Affordable(r, q, leverage)
    && BelowCeilings(r, t, q, r.globalHeadroomInr, r.pairHeadroomInr, r.strategyHeadroomInr) && MeetsMinima(r, t, q)
  }

  /** Tiers that start at nothing and meet without a gap or an overlap. */
  predicate Contiguous(tiers: seq<Tier>) {
    && tiers != [] && tiers[0].lower == 0.0 && tiers[0].lowerInclusive
    && (forall k :: 0 <= k < |tiers| ==>
          tiers[k].lower >= 0.0 && tiers[k].maxLeverage > 0.0 && (tiers[k].upper.Some? ==> tiers[k].lower < tiers[k].upper.value))
    && (forall k :: 0 < k < |tiers| ==>
          tiers[k - 1].upper == Some(tiers[k].lower) && (tiers[k - 1].upperInclusive <==> !tiers[k].lowerInclusive))
  }

  predicate OnGrid(price: real, r: Request) {
    && 0.0 < price && r.minPrice <= price <= r.maxPrice
    && r.priceIncrement > 0.0 && (price / r.priceIncrement).Floor as real * r.priceIncrement == price
  }

  predicate WellFormed(r: Request) {
    && OnGrid(r.entry, r) && OnGrid(r.stop, r) && (r.side == LONG ==> r.stop < r.entry) && (r.side == SHORT ==> r.entry < r.stop)
    && r.equityInr > 0.0 && r.riskPercent > 0.0 && r.rateInrPerUsdt > 0.0 && r.multiplier > 0.0
    && r.quantityIncrement > 0.0 && 0.0 <= r.minQuantity <= r.maxQuantity
    && Contiguous(r.tiers) && r.exchangeMaxLeverage > 0.0 && (forall t <- r.tiers :: t.maxLeverage <= r.exchangeMaxLeverage)
  }

  // ------------------------------------------- the policy and the model agree

  lemma {:induction false} WellFormedIsAcceptable(r: Request)
    ensures WellFormed(r) <==> Acceptable(r)
  {
    ContiguousIsValid(r.tiers);
    hide Contiguous, ValidTiers;
  }

  lemma {:induction false} ContiguousIsValid(tiers: seq<Tier>)
    ensures Contiguous(tiers) <==> ValidTiers(tiers)
  {
    if ValidTiers(tiers) {
      assert TierFits(tiers, 0);
      forall k | 0 <= k < |tiers|
        ensures tiers[k].lower >= 0.0 && tiers[k].maxLeverage > 0.0 && (tiers[k].upper.Some? ==> tiers[k].lower < tiers[k].upper.value) {
        assert TierFits(tiers, k);
      }
      forall k | 0 < k < |tiers|
        ensures tiers[k - 1].upper == Some(tiers[k].lower) && (tiers[k - 1].upperInclusive <==> !tiers[k].lowerInclusive) {
        assert TierFits(tiers, k);
      }
    }
    if Contiguous(tiers) {
      forall k | 0 <= k < |tiers| ensures TierFits(tiers, k) {
        if k < |tiers| - 1 {
          var next := k + 1;
          assert tiers[next - 1].upper == Some(tiers[next].lower);
        }
      }
    }
  }

  lemma {:induction false} LimitIsFinal(r: Request, t: Tier)
    ensures forall leverage :: LeastLimit(r, t, leverage) <==> leverage == FinalLeverage(r, t)
  {
    FinalIsLimit(r, t);
    hide FinalLeverage, IsLimit;
  }

  lemma {:induction false} FinalIsLimit(r: Request, t: Tier)
    ensures LeastLimit(r, t, FinalLeverage(r, t))
  {
  }

  lemma {:induction false} WholeIsAligned(r: Request, q: real)
    requires r.quantityIncrement > 0.0
    ensures WholeIncrements(r, q) <==> Aligned(q, r.quantityIncrement)
  {
    var i := r.quantityIncrement;
    if WholeIncrements(r, q) {
      assert q == Steps((q / i).Floor, i);
    }
    if Aligned(q, i) {
      var k: int :| q == Steps(k, i);
      Undoes(k as real, i);
      assert q / i == k as real;
    }
  }

  lemma {:induction false} Undoes(k: real, i: real)
    requires i > 0.0
    ensures k * i / i == k
  {
    UniqueQuotient(k * i, i, k);
  }

  lemma {:induction false} SameLoss(r: Request, q: real)
    requires Acceptable(r)
    ensures Loss(r, q) == StopRisk(r, q)
  {
    hide ValidTiers, AlignedTo;
    assert (if r.side == LONG then r.entry - r.stop else r.stop - r.entry) == StopDistance(r);
  }

  lemma {:induction false} SameWorth(r: Request, q: real)
    ensures WorthUsdt(r, q) == NotionalUsdt(r, q) && WorthInr(r, q) == NotionalInr(r, q)
  {
  }

  lemma {:induction false} PermittedIsAdmissible(r: Request, t: Tier, q: real)
    requires Acceptable(r)
    ensures Permitted(r, t, q, FinalLeverage(r, t)) <==> Admissible(r, t, q)
  {
    hide Acceptable, WholeIncrements, Aligned, FinalLeverage, BelowCeilings, Affordable, WithinCeilings, MeetsMinima, AboveFloors;
    AcceptableIncrement(r);
    WholeIsAligned(r, q);
    CeilingsAgree(r, t, q);
    FloorsAgree(r, t, q);
  }

  lemma {:induction false} CeilingsAgree(r: Request, t: Tier, q: real)
    requires Acceptable(r)
    ensures Affordable(r, q, FinalLeverage(r, t)) && BelowCeilings(r, t, q, r.globalHeadroomInr, r.pairHeadroomInr, r.strategyHeadroomInr)
            <==> WithinCeilings(r, t, q)
  {
    hide Acceptable, WorthUsdt, WorthInr, Loss, NotionalUsdt, NotionalInr, StopRisk, FinalLeverage;
    SameLoss(r, q);
    SameWorth(r, q);
  }

  lemma {:induction false} FloorsAgree(r: Request, t: Tier, q: real)
    ensures MeetsMinima(r, t, q) <==> AboveFloors(r, t, q)
  {
    hide WorthUsdt, WorthInr, NotionalUsdt, NotionalInr;
    SameWorth(r, q);
  }

  lemma {:induction false} AcceptableIncrement(r: Request)
    requires Acceptable(r)
    ensures r.quantityIncrement > 0.0
  {
    hide ValidTiers, AlignedTo;
  }

  // -------------------------------------------------------------- the theorem

  /** A permitted size, the best of any tier, with what it is worth. */
  ghost predicate BestPermitted(r: Request, p: Feasible, usdt: real, inr: real, risk: real) {
    && p.tier in r.tiers && LeastLimit(r, p.tier, p.leverage) && Permitted(r, p.tier, p.quantity, p.leverage)
    && usdt == WorthUsdt(r, p.quantity) && inr == WorthInr(r, p.quantity) && risk == Loss(r, p.quantity)
    && (forall t, x, leverage :: t in r.tiers && LeastLimit(r, t, leverage) && Permitted(r, t, x, leverage) ==>
          x < p.quantity || (x == p.quantity && leverage <= p.leverage))
  }

  ghost predicate NothingPermitted(r: Request) {
    forall t, x, leverage :: t in r.tiers && LeastLimit(r, t, leverage) ==> !Permitted(r, t, x, leverage)
  }

  /** The sizing theorem. Unless the arithmetic runs out of digits: an ill-formed request is refused as such; otherwise the
      greatest permitted size over all tiers is returned, at the greatest leverage among equals, or none is permitted and
      the reason says why. */
  lemma {:induction false} SizingIsBest(r: Request, sd: Digits)
    requires ResolveTierSizing(r, sd) != Rejected(VALUATION_NUMERIC_CONTEXT_EXCEEDED)
    ensures ResolveTierSizing(r, sd) == Rejected(INVALID_REQUEST) <==> !WellFormed(r)
    ensures match ResolveTierSizing(r, sd)
            case Sized(p, usdt, inr, risk) => BestPermitted(r, p, usdt, inr, risk)
            case Rejected(reason) => WellFormed(r) ==> NothingPermitted(r) && Explains(r, reason)
  {
    hide ResolveUnchecked, WellFormed, Acceptable, BestPermitted, NothingPermitted, Explains;
    WellFormedIsAcceptable(r);
    IllFormedIsRefused(r, sd);
    if Acceptable(r) {
      SizedIsBest(r, sd);
      if ResolveUnchecked(r, sd).value.Rejected? {
        ReasonExplains(r, sd);
      }
    }
  }

  lemma {:induction false} IllFormedIsRefused(r: Request, sd: Digits)
    ensures !Acceptable(r) ==> ResolveUnchecked(r, sd) == Exact(Rejected(INVALID_REQUEST))
  {
    hide Acceptable;
  }

  lemma {:induction false} SizedIsBest(r: Request, sd: Digits)
    requires Acceptable(r) && ResolveUnchecked(r, sd).Exact?
    ensures match ResolveUnchecked(r, sd).value
            case Sized(p, usdt, inr, risk) => BestPermitted(r, p, usdt, inr, risk)
            case Rejected(reason) => reason != INVALID_REQUEST && NothingPermitted(r)
  {
    hide ResolveUnchecked, Acceptable, Admissible, Permitted, LeastLimit, FinalLeverage, NotionalUsdt, NotionalInr, StopRisk, RiskBudget, WorthUsdt,
      WorthInr, Loss;
    SizingIsOptimal(r, sd);
    forall t, x, leverage | LeastLimit(r, t, leverage)
      ensures leverage == FinalLeverage(r, t) && (Permitted(r, t, x, leverage) <==> Admissible(r, t, x)) {
      LimitIsFinal(r, t);
      PermittedIsAdmissible(r, t, x);
    }
    if ResolveUnchecked(r, sd).value.Sized? {
      var p := ResolveUnchecked(r, sd).value.position;
      LimitIsFinal(r, p.tier);
      SameWorth(r, p.quantity);
      SameLoss(r, p.quantity);
      assert LeastLimit(r, p.tier, p.leverage) && Permitted(r, p.tier, p.quantity, p.leverage);
    }
  }

  /** What it costs in margin: with every single limit the position can be afforded, and its leverage exceeds none. */
  lemma {:induction false} EveryLimitHolds(r: Request, sd: Digits, limit: real)
    requires ResolveTierSizing(r, sd).Sized? && IsLimit(r, ResolveTierSizing(r, sd).position.tier, limit)
    ensures ResolveTierSizing(r, sd).position.leverage <= limit
    ensures r.availableMarginInr >= 0.0 ==> ResolveTierSizing(r, sd).notionalInr <= r.availableMarginInr * limit
  {
    hide ResolveTierSizing, IsLimit, BelowCeilings, MeetsMinima, WholeIncrements, WorthUsdt, WorthInr, Loss, WellFormed;
    SizingIsBest(r, sd);
    var p := ResolveTierSizing(r, sd).position;
    if r.availableMarginInr >= 0.0 {
      MulMonotone(p.leverage, limit, r.availableMarginInr);
    }
  }

  // ------------------------------------------------------------- the reasons

  function AtLeastZero(x: real): real {
    if x < 0.0 then 0.0 else x
  }

  /** Below every ceiling, where a headroom that is overdrawn counts as used up. */
  predicate BelowCappedCeilings(r: Request, t: Tier, q: real) {
    BelowCeilings(r, t, q, AtLeastZero(r.globalHeadroomInr), AtLeastZero(r.pairHeadroomInr), AtLeastZero(r.strategyHeadroomInr))
  }

  predicate Reachable(r: Request, t: Tier, q: real, leverage: real) {
    WholeIncrements(r, q) && Affordable(r, q, leverage) && BelowCappedCeilings(r, t, q)
  }

  /** Every size within reach is too small a quantity, or is worth too little. */
  ghost predicate QuantityMissed(r: Request, t: Tier, leverage: real) {
    forall q :: Reachable(r, t, q, leverage) ==> q < r.minQuantity || q < r.minTradeSize
  }

  ghost predicate NotionalMissed(r: Request, t: Tier, leverage: real) {
    forall q :: Reachable(r, t, q, leverage) ==> WorthUsdt(r, q) < r.minNotional
  }

  /** No other ceiling forbids anything that the margin affords. */
  ghost predicate MarginBinds(r: Request, t: Tier, leverage: real) {
    forall q :: WholeIncrements(r, q) && Affordable(r, q, leverage) ==> BelowCappedCeilings(r, t, q)
  }

  /** The reason is the one that every tier has, and the general one if the tiers differ. */
  ghost predicate Explains(r: Request, reason: Rejection) {
    && reason in {INSUFFICIENT_MARGIN, MIN_QUANTITY_NOT_MET, MIN_NOTIONAL_NOT_MET, NO_VALID_LEVERAGE_TIER}
    && (reason == INSUFFICIENT_MARGIN <==> forall t, leverage :: t in r.tiers && LeastLimit(r, t, leverage) ==>
          MarginBinds(r, t, leverage) && (QuantityMissed(r, t, leverage) || NotionalMissed(r, t, leverage)))
    && (reason == MIN_QUANTITY_NOT_MET <==> forall t, leverage :: t in r.tiers && LeastLimit(r, t, leverage) ==>
          !MarginBinds(r, t, leverage) && QuantityMissed(r, t, leverage))
    && (reason == MIN_NOTIONAL_NOT_MET <==> forall t, leverage :: t in r.tiers && LeastLimit(r, t, leverage) ==>
          !MarginBinds(r, t, leverage) && !QuantityMissed(r, t, leverage) && NotionalMissed(r, t, leverage))
  }

  lemma {:induction false} CappedIsClamped(r: Request, t: Tier, q: real)
    requires Acceptable(r)
    ensures Affordable(r, q, FinalLeverage(r, t)) && BelowCappedCeilings(r, t, q) <==> WithinClamped(r, t, q)
    ensures Affordable(r, q, FinalLeverage(r, t)) <==> NotionalInr(r, q) <= BuyingPower(r, t)
  {
    hide Acceptable, WorthUsdt, WorthInr, Loss, NotionalUsdt, NotionalInr, StopRisk, FinalLeverage;
    SameLoss(r, q);
    SameWorth(r, q);
  }

  /** The cause of a tier that gives nothing, from its greatest reachable quantity. */
  lemma {:induction false} CauseParts(r: Request, t: Tier, risk: real, sd: Digits) returns (q: real)
    requires TryTier(r, t, risk, sd).Exact? && TryTier(r, t, risk, sd).value.Bad?
    ensures CeilingsOf(r, t, risk, sd).Exact?
    ensures var c := CeilingsOf(r, t, risk, sd).value;
            var least := LeastCeiling(r, c);
            var cause := TryTier(r, t, risk, sd).value.cause;
            && FloorRatio(least, 1.0, r.quantityIncrement, sd) == Exact(q)
            && (cause == MARGIN_FLOOR <==> FloorsFail(r, q) && c.margin == least)
            && (cause == FailureCause.MIN_QUANTITY <==> q < MinimumQuantity(r) && c.margin != least)
            && (cause == FailureCause.MIN_NOTIONAL <==> FloorsFail(r, q) && !(q < MinimumQuantity(r)) && c.margin != least)
  {
    hide CeilingsOf, LeastCeiling, FloorRatio, CheckedProduct, FinalLeverage, InTier, MinimumQuantity;
    q := FloorRatio(LeastCeiling(r, CeilingsOf(r, t, risk, sd).value), 1.0, r.quantityIncrement, sd).value;
    assert Product2(q, Unit(r), sd).value == NotionalUsdt(r, q);
    hide NotionalUsdt, NotionalInr, BuyingPower, Unit;
  }

  lemma {:induction false} MarginBindsExactly(r: Request, t: Tier, risk: real, sd: Digits)
    requires Acceptable(r) && TierSane(t) && RiskCeiling(r, risk) && CeilingsOf(r, t, risk, sd).Exact?
    ensures var c := CeilingsOf(r, t, risk, sd).value; c.margin == LeastCeiling(r, c) <==> MarginBinds(r, t, FinalLeverage(r, t))
  {
    var c := CeilingsOf(r, t, risk, sd).value;
    var least := LeastCeiling(r, c);
    CeilingsParts(r, t, risk, sd);
    LeastBounds(r, c, least);
    hide CeilingsOf, LeastCeiling, Acceptable, Aligned, TierUpper, WithinClamped, BelowCappedCeilings, Affordable, RiskCeiling, NotionalInr,
      BuyingPower, FinalLeverage, FloorRatio, TierSane, WholeIncrements;
    MarginIsWhole(r, t, c, sd);
    forall q ensures WholeIncrements(r, q) && Affordable(r, q, FinalLeverage(r, t)) ==>
                       (q <= c.margin && (BelowCappedCeilings(r, t, q) <==> q <= least)) {
      if WholeIncrements(r, q) && Affordable(r, q, FinalLeverage(r, t)) {
        AffordedQuantity(r, t, c, risk, sd, q);
      }
    }
    AffordedQuantity(r, t, c, risk, sd, c.margin);
  }

  lemma {:induction false} MarginIsWhole(r: Request, t: Tier, c: Ceilings, sd: Digits)
    requires Acceptable(r) && QuantityFromInr(r, BuyingPower(r, t), sd) == Exact(c.margin)
    ensures WholeIncrements(r, c.margin) && Affordable(r, c.margin, FinalLeverage(r, t))
  {
    InrParts(r, BuyingPower(r, t), sd);
    assert r.quantityIncrement > 0.0;
    hide QuantityFromInr, UnitInr, FloorRatio, Aligned, FinalLeverage, BuyingPower, Acceptable;
    FloorRatioIsOptimal(BuyingPower(r, t), UnitInr(r), r.quantityIncrement, sd);
    InrCeiling(r, BuyingPower(r, t), sd, c.margin);
    WholeIsAligned(r, c.margin);
    CappedIsClamped(r, t, c.margin);
  }

  lemma {:induction false} AffordedQuantity(r: Request, t: Tier, c: Ceilings, risk: real, sd: Digits, q: real)
    requires Acceptable(r) && TierSane(t) && RiskCeiling(r, risk) && CeilingsOf(r, t, risk, sd) == Exact(c)
    requires QuantityFromInr(r, BuyingPower(r, t), sd) == Exact(c.margin)
    requires WholeIncrements(r, q) && Affordable(r, q, FinalLeverage(r, t))
    ensures q <= c.margin && (BelowCappedCeilings(r, t, q) <==> q <= LeastCeiling(r, c))
  {
    WholeIsAligned(r, q);
    CappedIsClamped(r, t, q);
    hide CeilingsOf, LeastCeiling, Acceptable, Aligned, WithinClamped, BelowCappedCeilings, Affordable, RiskCeiling, NotionalInr, BuyingPower,
      FinalLeverage, FloorRatio, TierSane, WholeIncrements, QuantityFromInr;
    CeilingsBound(r, t, risk, sd, q);
    InrCeiling(r, BuyingPower(r, t), sd, q);
  }

  /** A cause says what it names. */
  ghost predicate CauseHolds(r: Request, t: Tier, cause: FailureCause, leverage: real) {
    && (cause == MARGIN_FLOOR <==> MarginBinds(r, t, leverage) && (QuantityMissed(r, t, leverage) || NotionalMissed(r, t, leverage)))
    && (cause == FailureCause.MIN_QUANTITY <==> !MarginBinds(r, t, leverage) && QuantityMissed(r, t, leverage))
    && (cause == FailureCause.MIN_NOTIONAL <==>
        !MarginBinds(r, t, leverage) && !QuantityMissed(r, t, leverage) && NotionalMissed(r, t, leverage))
  }

  lemma {:induction false} CauseIsRight(r: Request, t: Tier, risk: real, sd: Digits)
    requires Acceptable(r) && TierSane(t) && RiskCeiling(r, risk) && TryTier(r, t, risk, sd).Exact? && TryTier(r, t, risk, sd).value.Bad?
    ensures CauseHolds(r, t, TryTier(r, t, risk, sd).value.cause, FinalLeverage(r, t))
  {
    var q := CauseParts(r, t, risk, sd);
    hide TryTier, CeilingsOf, LeastCeiling, FloorRatio, Acceptable, Aligned, WithinClamped, RiskCeiling, TierSane, MarginBinds, QuantityMissed,
      NotionalMissed, FinalLeverage, FloorsFail, MinimumQuantity;
    MarginBindsExactly(r, t, risk, sd);
    QuantityIsGreatest(r, t, risk, sd, q);
    MissedExactly(r, t, q);
  }

  lemma {:induction false} MinimumIsGreater(r: Request)
    ensures MinimumQuantity(r) >= r.minQuantity && MinimumQuantity(r) >= r.minTradeSize
    ensures MinimumQuantity(r) == r.minQuantity || MinimumQuantity(r) == r.minTradeSize
  {
  }

  lemma {:induction false} MissedExactly(r: Request, t: Tier, q: real)
    requires Acceptable(r) && Aligned(q, r.quantityIncrement)
    requires forall x :: Aligned(x, r.quantityIncrement) ==> (x <= q <==> WithinClamped(r, t, x))
    ensures QuantityMissed(r, t, FinalLeverage(r, t)) <==> q < MinimumQuantity(r)
    ensures NotionalMissed(r, t, FinalLeverage(r, t)) <==> NotionalUsdt(r, q) < r.minNotional
    ensures FloorsFail(r, q) <==> q < MinimumQuantity(r) || NotionalUsdt(r, q) < r.minNotional
  {
    assert r.quantityIncrement > 0.0;
    MinimumIsGreater(r);
    hide Acceptable, Aligned, WithinClamped, FinalLeverage, BelowCappedCeilings, Affordable, WholeIncrements, MinimumQuantity, WorthUsdt, NotionalUsdt;
    forall x ensures Reachable(r, t, x, FinalLeverage(r, t)) <==> Aligned(x, r.quantityIncrement) && x <= q {
      CappedIsClamped(r, t, x);
      WholeIsAligned(r, x);
    }
    forall x | Reachable(r, t, x, FinalLeverage(r, t)) ensures WorthUsdt(r, x) <= NotionalUsdt(r, q) {
      SameWorth(r, x);
      NotionalsGrow(r, x, q);
    }
    SameWorth(r, q);
    assert Reachable(r, t, q, FinalLeverage(r, t));
  }

  /** With nothing feasible, each tier has its cause. */
  lemma {:induction false} CausesOfTiers(r: Request, tiers: seq<Tier>, risk: real, sd: Digits)
    requires SurveyTiers(r, tiers, risk, sd).Exact? && SurveyTiers(r, tiers, risk, sd).value.feasible == []
    ensures var failures := SurveyTiers(r, tiers, risk, sd).value.failures;
            |failures| == |tiers| && forall k :: 0 <= k < |tiers| ==> TryTier(r, tiers[k], risk, sd) == Exact(Bad(failures[k]))
  {
    hide TryTier;
    if tiers != [] {
      CausesOfTiers(r, tiers[..|tiers| - 1], risk, sd);
    }
  }

  lemma {:induction false} ReasonExplains(r: Request, sd: Digits)
    requires Acceptable(r) && ResolveUnchecked(r, sd).Exact? && ResolveUnchecked(r, sd).value.Rejected?
    requires ResolveUnchecked(r, sd).value.reason != VALUATION_NUMERIC_CONTEXT_EXCEEDED
    ensures Explains(r, ResolveUnchecked(r, sd).value.reason)
  {
    var risk := ResolutionParts(r, sd);
    RiskIsCeiling(r, risk, sd);
    AllTiersSane(r);
    FirstTier(r);
    hide ResolveUnchecked, Acceptable, RiskCeiling, TierSane, FloorRatio, TryTier, CauseHolds, LeastLimit, FinalLeverage, SurveyTiers, Explains;
    var failures := SurveyTiers(r, r.tiers, risk, sd).value.failures;
    CausesOfTiers(r, r.tiers, risk, sd);
    forall k | 0 <= k < |r.tiers| ensures CauseHolds(r, r.tiers[k], failures[k], FinalLeverage(r, r.tiers[k])) {
      CauseIsRight(r, r.tiers[k], risk, sd);
    }
    FailuresExplain(r, failures);
  }

  lemma {:induction false} FailuresExplain(r: Request, failures: seq<FailureCause>)
    requires r.tiers != [] && |failures| == |r.tiers|
    requires forall k :: 0 <= k < |r.tiers| ==> CauseHolds(r, r.tiers[k], failures[k], FinalLeverage(r, r.tiers[k]))
    ensures Explains(r, NoFeasibleTierReason(failures))
  {
    hide MarginBinds, QuantityMissed, NotionalMissed, LeastLimit, FinalLeverage;
    forall t ensures forall leverage :: LeastLimit(r, t, leverage) <==> leverage == FinalLeverage(r, t) {
      LimitIsFinal(r, t);
    }
    assert forall k :: 0 <= k < |r.tiers| ==> r.tiers[k] in r.tiers && failures[k] in failures;
    assert failures[0] in failures;
  }

  // -------------------------------------------------------------- the digits

  /** With room for every product the arithmetic never runs out of digits. */
  lemma {:induction false} EnoughDigits(r: Request, sd: Digits)
    requires Ample(sd)
    ensures ResolveTierSizing(r, sd) != Rejected(VALUATION_NUMERIC_CONTEXT_EXCEEDED)
  {
    hide ResolveUnchecked, Acceptable;
    IllFormedIsRefused(r, sd);
    if Acceptable(r) {
      EverythingResolves(r, sd);
      hide Admissible, FinalLeverage, NotionalUsdt, NotionalInr, StopRisk, RiskBudget;
      SizingIsOptimal(r, sd);
    }
  }
}
