/** Model of src/risk/tier-resolution.ts: the largest position that respects the risk budget,
    every exposure headroom, the margin at each leverage tier, and the tier itself. */
module TierSizing {
  import opened Common
  import opened RiskDecimal

  datatype Tier = Tier(lower: real, lowerInclusive: bool, upper: Option<real>, upperInclusive: bool, maxLeverage: real)

  datatype Side = LONG | SHORT

  /** Everything the sizing reads from the request and the policy. */
  datatype Request = Request(
    side: Side, entry: real, stop: real, minPrice: real, maxPrice: real, priceIncrement: real,
    equityInr: real, riskPercent: real, availableMarginInr: real,
    rateInrPerUsdt: real, multiplier: real,
    quantityIncrement: real, minQuantity: real, minTradeSize: real, maxQuantity: real, minNotional: real, maxNotional: Option<real>,
    maxNotionalPerTradeInr: real, globalHeadroomInr: real, pairHeadroomInr: real, strategyHeadroomInr: real,
    tiers: seq<Tier>, exchangeMaxLeverage: real,
    modeLeverage: real, pairLeverage: real, globalLeverage: real,
    requestedLeverage: Option<real>, overrideLeverage: Option<real>, accountLeverage: Option<real>)

  datatype FailureCause = MARGIN_FLOOR | MIN_QUANTITY | MIN_NOTIONAL | OTHER

  datatype Rejection =
    | INVALID_REQUEST | RISK_BUDGET_NON_POSITIVE | VALUATION_NUMERIC_CONTEXT_EXCEEDED
    | INSUFFICIENT_MARGIN | MIN_QUANTITY_NOT_MET | MIN_NOTIONAL_NOT_MET | NO_VALID_LEVERAGE_TIER

  datatype Feasible = Feasible(quantity: real, leverage: real, tier: Tier)

  datatype Result = Sized(position: Feasible, notionalUsdt: real, notionalInr: real, stopRiskInr: real) | Rejected(reason: Rejection)

  // ------------------------------------------------------------------ tiers

  /** `validateTierIntervals`. */
  predicate TierFits(tiers: seq<Tier>, k: nat)
    requires k < |tiers|
  {
    var t := tiers[k];
    && t.lower >= 0.0 && t.maxLeverage > 0.0
    && (if t.upper.None? then k == |tiers| - 1 else t.lower < t.upper.value)
    && (if k > 0 then tiers[k - 1].upper == Some(t.lower) && tiers[k - 1].upperInclusive != t.lowerInclusive
        else t.lower == 0.0 && t.lowerInclusive)
  }

  predicate ValidTiers(tiers: seq<Tier>) {
    tiers != [] && forall k :: 0 <= k < |tiers| ==> TierFits(tiers, k)
  }

  method ValidateTierIntervals(tiers: seq<Tier>) returns (valid: bool)
    ensures valid == ValidTiers(tiers)
  {
    if |tiers| == 0 {
      return false;
    }
    var index := 0;
    while index < |tiers|
      invariant 0 <= index <= |tiers|
      invariant forall k :: 0 <= k < index ==> TierFits(tiers, k)
    {
      var tier := tiers[index];
      assert TierFits(tiers, index) ==> tier.lower >= 0.0;
      if tier.lower < 0.0 || tier.maxLeverage <= 0.0 {
        return false;
      }
      if tier.upper.None? {
        if index != |tiers| - 1 {
          return false;
        }
      } else if tier.lower >= tier.upper.value {
        return false;
      }
      if index > 0 {
        var prior := tiers[index - 1];
        if prior.upper.None? || prior.upper.value != tier.lower || prior.upperInclusive == tier.lowerInclusive {
          return false;
        }
      } else if tier.lower != 0.0 || !tier.lowerInclusive {
        return false;
      }
      index := index + 1;
    }
    valid := true;
  }

  predicate AboveLower(notional: real, t: Tier) {
    if t.lowerInclusive then notional >= t.lower else notional > t.lower
  }

  predicate BelowUpper(notional: real, t: Tier) {
    t.upper.Some? ==> if t.upperInclusive then notional <= t.upper.value else notional < t.upper.value
  }

  predicate InTier(notional: real, t: Tier) {
    AboveLower(notional, t) && BelowUpper(notional, t)
  }

  /** Validated tiers partition the notionals: every non-negative notional below the last bound lies in one tier... */
  lemma {:induction false} SomeTier(tiers: seq<Tier>, notional: real, k: nat) returns (j: nat)
    requires ValidTiers(tiers) && notional >= 0.0 && k < |tiers| && BelowUpper(notional, tiers[k])
    ensures j <= k && InTier(notional, tiers[j])
  {
    assert TierFits(tiers, k);
    if AboveLower(notional, tiers[k]) {
      j := k;
    } else {
      j := SomeTier(tiers, notional, k - 1);
    }
  }

  /** ...and in only one, because what is below a tier's lower bound is exactly what is below its predecessor's upper bound. */
  lemma {:induction false} OnlyTier(tiers: seq<Tier>, notional: real, j: nat, k: nat)
    requires ValidTiers(tiers) && j < k < |tiers| && InTier(notional, tiers[k])
    ensures !InTier(notional, tiers[j])
  {
    BoundsAscend(tiers, notional, j, k);
  }

  lemma {:induction false} BoundsAscend(tiers: seq<Tier>, notional: real, j: nat, k: nat)
    requires ValidTiers(tiers) && j < k < |tiers| && AboveLower(notional, tiers[k])
    ensures !BelowUpper(notional, tiers[j])
    decreases k
  {
    assert TierFits(tiers, k) && TierFits(tiers, k - 1);
    if j < k - 1 {
      BoundsAscend(tiers, notional, j, k - 1);
    }
  }

  // ----------------------------------------------------------------- inputs

  predicate AlignedTo(x: real, increment: real)
    requires increment > 0.0
  {
    (x / increment).Floor as real * increment == x
  }

  /** The gate in front of the sizing proper. */
  predicate Acceptable(r: Request) {
    && r.quantityIncrement > 0.0 && r.priceIncrement > 0.0 && r.multiplier > 0.0 && r.maxQuantity >= r.minQuantity >= 0.0
    && r.entry > 0.0 && r.minPrice <= r.entry <= r.maxPrice && AlignedTo(r.entry, r.priceIncrement)
    && r.stop > 0.0 && r.minPrice <= r.stop <= r.maxPrice && AlignedTo(r.stop, r.priceIncrement)
    && (if r.side == LONG then r.stop < r.entry else r.stop > r.entry)
    && r.equityInr > 0.0 && r.riskPercent > 0.0 && r.rateInrPerUsdt > 0.0
    && ValidTiers(r.tiers) && r.exchangeMaxLeverage > 0.0 && (forall t <- r.tiers :: t.maxLeverage <= r.exchangeMaxLeverage)
  }

  function Unit(r: Request): real {
    r.entry * r.multiplier
  }

  function StopDistance(r: Request): real {
    if r.entry >= r.stop then r.entry - r.stop else r.stop - r.entry
  }

  function UnitLoss(r: Request): real {
    StopDistance(r) * r.multiplier * r.rateInrPerUsdt
  }

  function RiskBudget(r: Request): real {
    r.equityInr * r.riskPercent / 100.0
  }

  function UnitInr(r: Request): real {
    r.rateInrPerUsdt * Unit(r)
  }

  /** What a quantity is worth, and what it loses if stopped out. */
  function NotionalUsdt(r: Request, q: real): real {
    q * Unit(r)
  }

  function NotionalInr(r: Request, q: real): real {
    q * UnitInr(r)
  }

  function StopRisk(r: Request, q: real): real {
    q * UnitLoss(r)
  }

  function BuyingPower(r: Request, t: Tier): real {
    r.availableMarginInr * FinalLeverage(r, t)
  }

  function Lesser(x: real, y: Option<real>): real {
    if y.Some? && y.value < x then y.value else x
  }

  function FinalLeverage(r: Request, t: Tier): real {
    var common := Lesser(Lesser(Lesser(t.maxLeverage, Some(r.modeLeverage)), Some(r.pairLeverage)), Some(r.globalLeverage));
    Lesser(Lesser(Lesser(common, r.requestedLeverage), r.overrideLeverage), r.accountLeverage)
  }

  function MinimumQuantity(r: Request): real {
    if r.minQuantity > r.minTradeSize then r.minQuantity else r.minTradeSize
  }

  // ------------------------------------------------- what is asked of a size

  /** Everything below is an upper bound on the quantity. */
  predicate WithinCeilings(r: Request, t: Tier, q: real) {
    && StopRisk(r, q) <= RiskBudget(r)
    && q <= r.maxQuantity && (r.maxNotional.Some? ==> NotionalUsdt(r, q) <= r.maxNotional.value)
    && NotionalInr(r, q) <= r.maxNotionalPerTradeInr
    && NotionalInr(r, q) <= r.globalHeadroomInr && NotionalInr(r, q) <= r.pairHeadroomInr && NotionalInr(r, q) <= r.strategyHeadroomInr
    && NotionalInr(r, q) <= BuyingPower(r, t)
    && BelowUpper(NotionalUsdt(r, q), t)
  }

  /** Everything below is a lower bound. */
  predicate AboveFloors(r: Request, t: Tier, q: real) {
    q >= MinimumQuantity(r) && NotionalUsdt(r, q) >= r.minNotional && AboveLower(NotionalUsdt(r, q), t)
  }

  /** A size that a reader of the policy would accept at this tier. */
  ghost predicate Admissible(r: Request, t: Tier, q: real) {
    Aligned(q, r.quantityIncrement) && WithinCeilings(r, t, q) && AboveFloors(r, t, q)
  }

  // --------------------------------------------------------------- one tier

  /** The ceilings of a tier, as quantities. */
  datatype Ceilings = Ceilings(risk: real, perTrade: real, global: real, pair: real, strategy: real, pairMax: Option<real>,
                               margin: real, tierUpper: Option<real>)

  function Clamped(x: real): real {
    if x < 0.0 then 0.0 else x
  }

  function QuantityFromInr(r: Request, cap: real, sd: Digits): Checked<real> {
    var unitInr :- Product2(r.rateInrPerUsdt, Unit(r), sd);
    FloorRatio(cap, unitInr, r.quantityIncrement, sd)
  }

  function QuantityFromUsdt(r: Request, cap: real, sd: Digits): Checked<real> {
    FloorRatio(cap, Unit(r), r.quantityIncrement, sd)
  }

  /** An exclusive upper bound that would be hit exactly is lowered by one increment. */
  function TierUpper(r: Request, t: Tier, sd: Digits): Checked<Option<real>> {
    if t.upper.None? then Exact(None)
    else
      var upper :- QuantityFromUsdt(r, t.upper.value, sd);
      if t.upperInclusive then Exact(Some(upper))
      else
        var notional :- Product2(upper, Unit(r), sd);
        Exact(Some(if notional == t.upper.value then Clamped(upper - r.quantityIncrement) else upper))
  }

  function PairMax(r: Request, sd: Digits): Checked<Option<real>> {
    if r.maxNotional.None? then Exact(None)
    else
      var q :- QuantityFromUsdt(r, r.maxNotional.value, sd);
      Exact(Some(q))
  }

  function CeilingsOf(r: Request, t: Tier, risk: real, sd: Digits): Checked<Ceilings> {
    var perTrade :- QuantityFromInr(r, r.maxNotionalPerTradeInr, sd);
    var global :- QuantityFromInr(r, Clamped(r.globalHeadroomInr), sd);
    var pair :- QuantityFromInr(r, Clamped(r.pairHeadroomInr), sd);
    var strategy :- QuantityFromInr(r, Clamped(r.strategyHeadroomInr), sd);
    var pairMax :- PairMax(r, sd);
    var buyingPower :- Product2(r.availableMarginInr, FinalLeverage(r, t), sd);
    var margin :- QuantityFromInr(r, buyingPower, sd);
    var tierUpper :- TierUpper(r, t, sd);
    Exact(Ceilings(risk, perTrade, global, pair, strategy, pairMax, margin, tierUpper))
  }

  function LeastCeiling(r: Request, c: Ceilings): real {
    var common := Lesser(Lesser(Lesser(Lesser(Lesser(c.risk, Some(r.maxQuantity)), Some(c.perTrade)), Some(c.global)), Some(c.pair)), Some(c.strategy));
    Lesser(Lesser(Lesser(common, c.pairMax), Some(c.margin)), c.tierUpper)
  }

  datatype TierVerdict = Good(position: Feasible) | Bad(cause: FailureCause)

  /** One turn of the loop over the tiers. */
  function TryTier(r: Request, t: Tier, risk: real, sd: Digits): Checked<TierVerdict> {
    var c :- CeilingsOf(r, t, risk, sd);
    var least := LeastCeiling(r, c);
    var quantity :- FloorRatio(least, 1.0, r.quantityIncrement, sd);
    var notionalUsdt :- Product2(quantity, Unit(r), sd);
    var notionalInr :- Product2(notionalUsdt, r.rateInrPerUsdt, sd);
    var quantityFails := quantity < MinimumQuantity(r);
    var notionalFails := notionalUsdt < r.minNotional;
    if quantityFails || notionalFails then
      Exact(Bad(if c.margin == least then MARGIN_FLOOR else if quantityFails then MIN_QUANTITY else MIN_NOTIONAL))
    else
      var buyingPower :- Product2(r.availableMarginInr, FinalLeverage(r, t), sd);
      if !InTier(notionalUsdt, t) || quantity > risk || quantity > r.maxQuantity
         || (r.maxNotional.Some? && notionalUsdt > r.maxNotional.value) || notionalInr > r.maxNotionalPerTradeInr
         || notionalInr > r.globalHeadroomInr || notionalInr > r.pairHeadroomInr || notionalInr > r.strategyHeadroomInr
         || notionalInr > buyingPower
      then Exact(Bad(OTHER))
      else Exact(Good(Feasible(quantity, FinalLeverage(r, t), t)))
  }

  // -------------------------------------------------------------- all tiers

  datatype Survey = Survey(feasible: seq<Feasible>, failures: seq<FailureCause>)

  function SurveyTiers(r: Request, tiers: seq<Tier>, risk: real, sd: Digits): Checked<Survey> {
    if tiers == [] then Exact(Survey([], []))
    else
      var s :- SurveyTiers(r, tiers[..|tiers| - 1], risk, sd);
      var verdict :- TryTier(r, tiers[|tiers| - 1], risk, sd);
      match verdict
      case Good(p) => Exact(s.(feasible := s.feasible + [p]))
      case Bad(cause) => Exact(s.(failures := s.failures + [cause]))
  }

  /** The source's loop over the tiers. */
  method ComputeSurvey(r: Request, tiers: seq<Tier>, risk: real, sd: Digits) returns (s: Checked<Survey>)
    ensures s == SurveyTiers(r, tiers, risk, sd)
  {
    hide TryTier;
    var feasible: seq<Feasible>, failures: seq<FailureCause> := [], [];
    var i := 0;
    while i < |tiers|
      invariant 0 <= i <= |tiers| && SurveyTiers(r, tiers[..i], risk, sd) == Exact(Survey(feasible, failures))
    {
      assert tiers[..i + 1][..i] == tiers[..i];
      var verdict := TryTier(r, tiers[i], risk, sd);
      if verdict.ContextExceeded? {
        FailureIsFinal(r, tiers, i + 1, risk, sd);
        return ContextExceeded;
      }
      if verdict.value.Good? {
        feasible := feasible + [verdict.value.position];
      } else {
        failures := failures + [verdict.value.cause];
      }
      i := i + 1;
    }
    assert tiers[..i] == tiers;
    s := Exact(Survey(feasible, failures));
  }

  lemma {:induction false} FailureIsFinal(r: Request, tiers: seq<Tier>, i: nat, risk: real, sd: Digits)
    requires i <= |tiers| && SurveyTiers(r, tiers[..i], risk, sd).ContextExceeded?
    ensures SurveyTiers(r, tiers, risk, sd).ContextExceeded?
  {
    if i < |tiers| {
      assert tiers[..|tiers| - 1][..i] == tiers[..i];
      FailureIsFinal(r, tiers[..|tiers| - 1], i, risk, sd);
    } else {
      assert tiers[..i] == tiers;
    }
  }

  predicate Better(a: Feasible, b: Feasible) {
    a.quantity > b.quantity || (a.quantity == b.quantity && a.leverage > b.leverage)
  }

  /** The first of the sorted candidates: nothing is better, and nothing before it is as good. */
  function Best(candidates: seq<Feasible>): Feasible
    requires candidates != []
  {
    if |candidates| == 1 then candidates[0]
    else
      var best := Best(candidates[..|candidates| - 1]);
      var last := candidates[|candidates| - 1];
      if Better(last, best) then last else best
  }

  function NoFeasibleTierReason(failures: seq<FailureCause>): Rejection {
    if failures != [] && (forall f <- failures :: f == MARGIN_FLOOR) then INSUFFICIENT_MARGIN
    else if failures != [] && (forall f <- failures :: f == FailureCause.MIN_QUANTITY) then MIN_QUANTITY_NOT_MET
    else if failures != [] && (forall f <- failures :: f == FailureCause.MIN_NOTIONAL) then MIN_NOTIONAL_NOT_MET
    else NO_VALID_LEVERAGE_TIER
  }

  function Conclude(r: Request, s: Survey, sd: Digits): Checked<Result> {
    if s.feasible == [] then Exact(Rejected(NoFeasibleTierReason(s.failures)))
    else
      var best := Best(s.feasible);
      var notionalUsdt :- Product2(best.quantity, Unit(r), sd);
      var notionalInr :- Product2(notionalUsdt, r.rateInrPerUsdt, sd);
      var stopRisk :- Product2(best.quantity, UnitLoss(r), sd);
      if stopRisk > RiskBudget(r) then Exact(Rejected(VALUATION_NUMERIC_CONTEXT_EXCEEDED))
      else Exact(Sized(best, notionalUsdt, notionalInr, stopRisk))
  }

  function CheckedUnit(r: Request, sd: Digits): Checked<real> {
    Product2(r.entry, r.multiplier, sd)
  }

  function CheckedBudget(r: Request, sd: Digits): Checked<real> {
    var gross :- Product2(r.equityInr, r.riskPercent, sd);
    Exact(gross / 100.0)
  }

  function CheckedUnitLoss(r: Request, sd: Digits): Checked<real> {
    Product3(StopDistance(r), r.multiplier, r.rateInrPerUsdt, sd)
  }

  function ResolveUnchecked(r: Request, sd: Digits): Checked<Result> {
    if !Acceptable(r) then Exact(Rejected(INVALID_REQUEST))
    else
      var unit :- CheckedUnit(r, sd);
      var budget :- CheckedBudget(r, sd);
      var unitLoss :- CheckedUnitLoss(r, sd);
      if unitLoss <= 0.0 || budget <= 0.0 then Exact(Rejected(RISK_BUDGET_NON_POSITIVE))
      else
        var risk :- FloorRatio(budget, unitLoss, r.quantityIncrement, sd);
        var survey :- SurveyTiers(r, r.tiers, risk, sd);
        Conclude(r, survey, sd)
  }

  function ResolveTierSizing(r: Request, sd: Digits): Result {
    match ResolveUnchecked(r, sd)
    case Exact(result) => result
    case ContextExceeded => Rejected(VALUATION_NUMERIC_CONTEXT_EXCEEDED)
  }
}
