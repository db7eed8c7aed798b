/** Model of the opening branch of src/risk/engine.ts: sizing within the headroom, then the exposure check of what was sized.
    This is the engine that admission may rely on. */
module RiskEvaluation {
  import opened Common
  import opened Admission
  import opened AdmissionCaps
  import AdmissionHistories
  import AdmissionTheorems
  import Exposure
  import RiskDecimal
  import TierSizing
  import TierSizingTheorems

  /** Everything else that `evaluateRisk` looks at. `elsewhere` is what all of its other steps come to, where opening means
      that none of them objects; `sizing` is the request before the headroom is filled in. */
  datatype Surroundings = Surroundings(elsewhere: (Policy, Context) -> Verdict, sizing: (Policy, Context) -> TierSizing.Request,
                                       margin: (real, real) -> real, sd: RiskDecimal.Digits)

  function WithHeadroom(r: TierSizing.Request, h: Exposure.Headroom): TierSizing.Request {
    r.(globalHeadroomInr := h.global, pairHeadroomInr := h.pair, strategyHeadroomInr := h.strategy)
  }

  /** Opens with the sized notional, unless sizing or exposure has a reason against it. */
  function EvaluateOpening(x: Surroundings, policy: Policy, c: Context): Verdict {
    var candidate := CandidateOf(c.decision);
    var headroom := if c.exposure.None? then None else Exposure.HeadroomFor(c.exposure.value, candidate, policy);
    if headroom.None? then REJECTED
    else
      match TierSizing.ResolveTierSizing(WithHeadroom(x.sizing(policy, c), headroom.value), x.sd)
      case Rejected(_) => REJECTED
      case Sized(p, _, notionalInr, _) =>
        if Exposure.Reasons(c.exposure, candidate, policy, Some(notionalInr)) != [] then REJECTED
        else OPEN_ACCEPTED(notionalInr, x.margin(notionalInr, p.leverage))
  }

  function Evaluate(x: Surroundings, policy: Policy, c: Context): Verdict {
    match x.elsewhere(policy, c)
    case OPEN_ACCEPTED(_, _) => EvaluateOpening(x, policy, c)
    case other => other
  }

  function EngineOf(x: Surroundings): RiskEngine {
    (policy: Policy, c: Context) => Evaluate(x, policy, c)
  }

  /** A size is never negative. */
  lemma {:induction false} SizedNotionalIsNotNegative(r: TierSizing.Request, sd: RiskDecimal.Digits)
    ensures var result := TierSizing.ResolveTierSizing(r, sd);
            result.Sized? ==> result.position.quantity >= 0.0 && result.notionalInr >= 0.0
  {
    hide TierSizing.Admissible, TierSizing.NotionalInr, TierSizing.MinimumQuantity;
    if TierSizing.ResolveTierSizing(r, sd).Sized? {
      assert TierSizing.Acceptable(r);
      TierSizingTheorems.SizingIsOptimal(r, sd);
      var p := TierSizing.ResolveTierSizing(r, sd).position;
      AdmissibleIsNotNegative(r, p.tier, p.quantity);
    }
  }

  lemma {:induction false} AdmissibleIsNotNegative(r: TierSizing.Request, t: TierSizing.Tier, q: real)
    requires TierSizing.Acceptable(r) && TierSizing.Admissible(r, t, q)
    ensures q >= 0.0 && TierSizing.NotionalInr(r, q) >= 0.0
  {
    TierSizingTheorems.NotionalNonNegative(r, q);
  }

  /** The engine opens nothing that exposure has a reason against, whatever its other steps are. */
  lemma {:induction false} EvaluationRespectsCaps(x: Surroundings)
    ensures RespectsCaps(EngineOf(x))
  {
    hide TierSizing.ResolveTierSizing, Exposure.Reasons, Exposure.HeadroomFor;
    var engine := EngineOf(x);
    forall policy, c | engine(policy, c).OPEN_ACCEPTED?
      ensures engine(policy, c).notional >= 0.0
              && Exposure.Reasons(c.exposure, CandidateOf(c.decision), policy, Some(engine(policy, c).notional)) == [] {
      var headroom := Exposure.HeadroomFor(c.exposure.value, CandidateOf(c.decision), policy).value;
      SizedNotionalIsNotNegative(WithHeadroom(x.sizing(policy, c), headroom), x.sd);
    }
  }

  /** The exposure is known, sound and of the candidate's lineage. */
  predicate ExposureIsSound(c: Context) {
    && c.exposure.Some? && c.exposure.value.pending.KNOWN? && Exposure.Coherent(c.exposure.value)
    && !Exposure.Repeats(c.exposure.value.pending.reservations)
    && !Exposure.OtherLineage(c.exposure.value.pending.reservations, CandidateOf(c.decision))
  }

  /** Every verdict. What is no opening elsewhere stays what it is. An opening needs a sound exposure, a size within its headrooms
      and that size within every limit; then it opens with just that notional and its margin, and otherwise it is rejected. */
  lemma {:induction false} VerdictIsExact(x: Surroundings, policy: Policy, c: Context)
    ensures var verdict := Evaluate(x, policy, c);
            if !x.elsewhere(policy, c).OPEN_ACCEPTED? then verdict == x.elsewhere(policy, c)
            else
              var candidate := CandidateOf(c.decision);
              if !ExposureIsSound(c) then verdict == REJECTED
              else
                && Exposure.HeadroomFor(c.exposure.value, candidate, policy).Some?
                && var h := Exposure.HeadroomFor(c.exposure.value, candidate, policy).value;
                   var r := x.sizing(policy, c).(globalHeadroomInr := h.global, pairHeadroomInr := h.pair, strategyHeadroomInr := h.strategy);
                   match TierSizing.ResolveTierSizing(r, x.sd)
                   case Rejected(_) => verdict == REJECTED
                   case Sized(p, _, inr, _) =>
                     verdict == if Exposure.Fits(c.exposure.value, candidate, policy, inr) then OPEN_ACCEPTED(inr, x.margin(inr, p.leverage))
                                else REJECTED
  {
    hide TierSizing.ResolveTierSizing, Exposure.Reasons, Exposure.HeadroomFor, Exposure.Coherent, Exposure.Fits, Exposure.Repeats,
      Exposure.OtherLineage;
    if c.exposure.Some? {
      var s, candidate := c.exposure.value, CandidateOf(c.decision);
      Exposure.HeadroomIsExact(s, candidate, policy, 0.0);
      if Exposure.HeadroomFor(s, candidate, policy).Some? {
        var r := WithHeadroom(x.sizing(policy, c), Exposure.HeadroomFor(s, candidate, policy).value);
        if TierSizing.ResolveTierSizing(r, x.sd).Sized? {
          Exposure.SilentMeansFits(s, candidate, policy, TierSizing.ResolveTierSizing(r, x.sd).notionalInr);
        }
      }
    }
  }

  /** What is sized is opened. For a sound snapshot with a position to spare, let `r` be the sizing request with the snapshot's
      headrooms in it: if its instrument has a positive minimum, exposure never objects to what was sized, so the verdict is
      the sizing's own. */
  lemma {:induction false} SizedIsOpened(x: Surroundings, policy: Policy, c: Context, r: TierSizing.Request)
    requires c.exposure.Some? && c.exposure.value.pending.KNOWN?
    requires var s, candidate := c.exposure.value, CandidateOf(c.decision);
             && Exposure.RoomForOne(s, policy)
             && !Exposure.Repeats(s.pending.reservations) && !Exposure.OtherLineage(s.pending.reservations, candidate)
             && Exposure.HeadroomFor(s, candidate, policy)
                == Some(Exposure.Headroom(r.globalHeadroomInr, r.pairHeadroomInr, r.strategyHeadroomInr))
    requires r == x.sizing(policy, c).(globalHeadroomInr := r.globalHeadroomInr, pairHeadroomInr := r.pairHeadroomInr,
                                       strategyHeadroomInr := r.strategyHeadroomInr)
    requires r.minQuantity > 0.0 || r.minTradeSize > 0.0 || r.minNotional > 0.0
    ensures match TierSizing.ResolveTierSizing(r, x.sd)
            case Sized(p, _, inr, _) => EvaluateOpening(x, policy, c) == OPEN_ACCEPTED(inr, x.margin(inr, p.leverage))
            case Rejected(_) => EvaluateOpening(x, policy, c) == REJECTED
  {
    hide TierSizing.ResolveTierSizing, Exposure.Reasons, Exposure.HeadroomFor;
    var s, candidate := c.exposure.value, CandidateOf(c.decision);
    if TierSizing.ResolveTierSizing(r, x.sd).Sized? {
      SizedHasNoReason(r, x.sd, s, candidate, policy);
    }
  }

  lemma {:induction false} SizedHasNoReason(r: TierSizing.Request, sd: RiskDecimal.Digits, s: Snapshot, candidate: Exposure.Candidate, policy: Policy)
    requires TierSizing.ResolveTierSizing(r, sd).Sized? && s.pending.KNOWN?
    requires Exposure.RoomForOne(s, policy)
    requires !Exposure.Repeats(s.pending.reservations) && !Exposure.OtherLineage(s.pending.reservations, candidate)
    requires Exposure.HeadroomFor(s, candidate, policy)
             == Some(Exposure.Headroom(r.globalHeadroomInr, r.pairHeadroomInr, r.strategyHeadroomInr))
    requires r.minQuantity > 0.0 || r.minTradeSize > 0.0 || r.minNotional > 0.0
    ensures Exposure.Reasons(Some(s), candidate, policy, Some(TierSizing.ResolveTierSizing(r, sd).notionalInr)) == []
  {
    hide Exposure.Reasons, Exposure.HeadroomFor, Exposure.Coherent, Exposure.Fits, Exposure.Repeats, Exposure.OtherLineage, Exposure.RoomForOne;
    assert TierSizing.Acceptable(r);
    hide TierSizing.Acceptable;
    TierSizingTheorems.SizedPositionFits(r, sd, s, candidate, policy);
    Exposure.HeadroomIsExact(s, candidate, policy, 0.0);
    Exposure.SilentMeansFits(s, candidate, policy, TierSizing.ResolveTierSizing(r, sd).notionalInr);
  }

  lemma {:induction false} NoneAdmitted(keys: seq<string>, values: map<string, Entry>)
    requires forall d <- values :: values[d].record.status != ADMITTED
    ensures AdmittedOf(keys, values) == []
  {
    if keys != [] {
      NoneAdmitted(keys[..|keys| - 1], values);
    }
  }

  /** Admission with this engine never oversubscribes a cap. */
  lemma {:induction false} CapsHold(ss: seq<State>, ops: seq<AdmissionHistories.Operation>, x: Surroundings, base: Snapshot, limits: Limits, j: nat,
                                    ds: seq<string>)
    requires AdmissionHistories.History(ss, ops, EngineOf(x)) && j < |ss| && HoldAdmissions(ss[j], ds)
    requires forall d <- ss[0].byDecision.values :: ss[0].byDecision.values[d].record.status != ADMITTED
    requires forall i :: 0 <= i < |ops| ==> !AdmissionHistories.Restoring(ops[i]) && (ops[i].DoAdmit? ==> Under(ops[i].request, base, limits))
    ensures (forall d <- ds :: d in ss[j].byDecision.values) && Fits(RecordsOf(ds, ss[j].byDecision.values), base, limits)
  {
    EvaluationRespectsCaps(x);
    hide EngineOf, RespectsCaps;
    NoneAdmitted(ss[0].byDecision.keys, ss[0].byDecision.values);
    CapsAreNeverOversubscribed(ss, ops, EngineOf(x), base, limits, j, ds);
  }
}
