/** The coordinator never oversubscribes a cap: with a fixed base snapshot and fixed policies, what is
    open, what was pending before, and everything it has admitted together stay within every limit of the policy. */
module AdmissionCaps {
  import opened Common
  import opened Admission
  import opened AdmissionTheorems
  import opened AdmissionHistories
  import Exposure

  function CandidateOf(d: StrategyDecision): Exposure.Candidate {
    Exposure.Candidate(d.pair, d.strategyId, d.strategyVersion, d.parameterHash, d.instanceId)
  }

  /** What is needed of the risk engine: it opens a position only if exposure raises no reason against it. */
  ghost predicate RespectsCaps(engine: RiskEngine) {
    forall policy, c :: engine(policy, c).OPEN_ACCEPTED? ==>
      && engine(policy, c).notional >= 0.0
      && Exposure.Reasons(c.exposure, CandidateOf(c.decision), policy, Some(engine(policy, c).notional)) == []
  }

  /** The limits of the policy that requests about a pair share, as the policy has them. */
  datatype PairLimits = PairLimits(pairMaxExposure: real, maxCoinExposure: real)

  datatype Limits = Limits(globalMaxOpenNotional: real, maxConcurrentExposure: real, maxStrategyExposure: real,
                           globalMaxConcurrentPositions: int, maxConcurrentPositions: int, pairs: string -> PairLimits)

  /** A request about the fixed base snapshot, under a policy with these limits. */
  ghost predicate Under(q: Request, base: Snapshot, limits: Limits) {
    && q.context.exposure == Some(base)
    && q.policy.globalMaxOpenNotional == limits.globalMaxOpenNotional && q.policy.maxConcurrentExposure == limits.maxConcurrentExposure
    && q.policy.maxStrategyExposure == limits.maxStrategyExposure
    && q.policy.globalMaxConcurrentPositions == limits.globalMaxConcurrentPositions
    && q.policy.maxConcurrentPositions == limits.maxConcurrentPositions
    && PairLimits(q.policy.pairMaxExposure, q.policy.maxCoinExposure) == limits.pairs(q.context.decision.pair)
  }

  /** Everything admitted, on top of what is open and was pending, is within every limit. */
  ghost predicate Fits(rs: seq<Record>, base: Snapshot, limits: Limits) {
    && NothingNegative(rs)
    && (rs != [] ==> GlobalFits(rs, base, limits) && PositionsFit(|rs|, base, limits))
    && (forall r <- rs :: PairFits(rs, base, limits, r.pair) && StrategyFits(rs, base, limits, r.strategyId))
  }

  predicate GlobalFits(rs: seq<Record>, base: Snapshot, limits: Limits) {
    var total := base.globalOpen + Recorded(base.pending).global + Sum(rs, Everything());
    total <= limits.globalMaxOpenNotional && total <= limits.maxConcurrentExposure
  }

  predicate PositionsFit(admitted: nat, base: Snapshot, limits: Limits) {
    var total := base.openPositions + Recorded(base.pending).count + admitted;
    total <= limits.globalMaxConcurrentPositions && total <= limits.maxConcurrentPositions
  }

  predicate PairFits(rs: seq<Record>, base: Snapshot, limits: Limits, pair: string) {
    var total := Held(base.perPairOpen, pair) + Held(Recorded(base.pending).perPair, pair) + Sum(rs, OfPair(pair));
    total <= limits.pairs(pair).pairMaxExposure && total <= limits.pairs(pair).maxCoinExposure
  }

  predicate StrategyFits(rs: seq<Record>, base: Snapshot, limits: Limits, strategyId: string) {
    Held(base.perStrategyOpen, strategyId) + Held(Recorded(base.pending).perStrategy, strategyId) + Sum(rs, OfStrategy(strategyId))
      <= limits.maxStrategyExposure
  }

  // ----------------------------------------- what one filing does to the sums

  /** What an entry contributes. */
  function Share(values: map<string, Entry>, key: string, w: Weight): real {
    if key in values && values[key].record.status == ADMITTED then w(values[key].record) else 0.0
  }

  function Count(values: map<string, Entry>, key: string): nat {
    if key in values && values[key].record.status == ADMITTED then 1 else 0
  }

  lemma {:induction false} OtherKeys(keys: seq<string>, values: map<string, Entry>, key: string, e: Entry)
    requires key !in keys
    ensures AdmittedOf(keys, values[key := e]) == AdmittedOf(keys, values)
  {
    if keys != [] {
      OtherKeys(keys[..|keys| - 1], values, key, e);
    }
  }

  /** Replacing the entry of one key changes every weighted sum by that entry's share. */
  lemma {:induction false} Refiled(keys: seq<string>, values: map<string, Entry>, key: string, e: Entry, w: Weight)
    requires forall i, j :: 0 <= i < j < |keys| ==> keys[i] != keys[j]
    requires key in keys
    ensures Sum(AdmittedOf(keys, values[key := e]), w) ==
            Sum(AdmittedOf(keys, values), w) - Share(values, key, w) + Share(values[key := e], key, w)
    ensures |AdmittedOf(keys, values[key := e])| == |AdmittedOf(keys, values)| - Count(values, key) + Count(values[key := e], key)
  {
    var front, last := keys[..|keys| - 1], keys[|keys| - 1];
    var values' := values[key := e];
    LastSum(keys, values, w);
    LastSum(keys, values', w);
    if last == key {
      OtherKeys(front, values, key, e);
    } else {
      Refiled(front, values, key, e, w);
    }
  }

  lemma {:induction false} LastSum(keys: seq<string>, values: map<string, Entry>, w: Weight)
    requires keys != []
    ensures Sum(AdmittedOf(keys, values), w) == Sum(AdmittedOf(keys[..|keys| - 1], values), w) + Share(values, keys[|keys| - 1], w)
    ensures |AdmittedOf(keys, values)| == |AdmittedOf(keys[..|keys| - 1], values)| + Count(values, keys[|keys| - 1])
  {
    var front, last := AdmittedOf(keys[..|keys| - 1], values), keys[|keys| - 1];
    if last in values && values[last].record.status == ADMITTED {
      assert (front + [values[last].record])[..|front|] == front;
    } else {
      assert front + [] == front;
    }
  }

  /** Setting an entry changes every sum by the difference of the shares. */
  lemma {:induction false} SettingShifts(entries: Entries, key: string, e: Entry, w: Weight)
    requires Keyed(entries)
    ensures Sum(Admitted(entries.Set(key, e)), w) ==
            Sum(Admitted(entries), w) - Share(entries.values, key, w) + Share(map[key := e], key, w)
    ensures |Admitted(entries.Set(key, e))| == |Admitted(entries)| - Count(entries.values, key) + Count(map[key := e], key)
  {
    if key in entries.values {
      Refiled(entries.keys, entries.values, key, e, w);
    } else {
      var keys' := entries.keys + [key];
      assert keys'[..|keys'| - 1] == entries.keys;
      LastSum(keys', entries.values[key := e], w);
      OtherKeys(entries.keys, entries.values, key, e);
    }
  }

  /** The admitted records are exactly those of the admitted entries. */
  lemma {:induction false} AdmittedMembers(keys: seq<string>, values: map<string, Entry>, r: Record)
    ensures r in AdmittedOf(keys, values) <==> exists key <- keys :: key in values && values[key].record == r && r.status == ADMITTED
  {
    if keys != [] {
      var front, last := keys[..|keys| - 1], keys[|keys| - 1];
      AdmittedMembers(front, values, r);
      assert forall key <- keys :: key in front || key == last;
      if r in AdmittedOf(front, values) {
        var key :| key in front && key in values && values[key].record == r && r.status == ADMITTED;
        assert key in keys;
      }
      if last in values && values[last].record == r && r.status == ADMITTED {
        assert last in keys;
      }
    }
  }

  lemma {:induction false} SetMembers(entries: Entries, key: string, e: Entry)
    requires Keyed(entries)
    ensures forall r <- Admitted(entries.Set(key, e)) :: r in Admitted(entries) || (r == e.record && r.status == ADMITTED)
  {
    var entries' := entries.Set(key, e);
    SettingKeepsKeys(entries, key, e);
    forall r | r in Admitted(entries') ensures r in Admitted(entries) || (r == e.record && r.status == ADMITTED) {
      AdmittedMembers(entries'.keys, entries'.values, r);
      AdmittedMembers(entries.keys, entries.values, r);
      var k :| k in entries'.keys && k in entries'.values && entries'.values[k].record == r && r.status == ADMITTED;
      if k != key {
        assert k in entries.keys;
      }
    }
  }

  // ---------------------------------------------------------------- the caps

  /** Room under every limit for a grant of `n` more on top of everything admitted. */
  predicate RoomFor(rs: seq<Record>, n: real, pair: string, strategyId: string, base: Snapshot, limits: Limits) {
    var global := base.globalOpen + Recorded(base.pending).global + Sum(rs, Everything()) + n;
    var ofPair := Held(base.perPairOpen, pair) + Held(Recorded(base.pending).perPair, pair) + Sum(rs, OfPair(pair)) + n;
    var ofStrategy := Held(base.perStrategyOpen, strategyId) + Held(Recorded(base.pending).perStrategy, strategyId)
                      + Sum(rs, OfStrategy(strategyId)) + n;
    && n >= 0.0
    && global <= limits.globalMaxOpenNotional && global <= limits.maxConcurrentExposure
    && ofPair <= limits.pairs(pair).pairMaxExposure && ofPair <= limits.pairs(pair).maxCoinExposure
    && ofStrategy <= limits.maxStrategyExposure && PositionsFit(|rs| + 1, base, limits)
  }

  /** A silent verdict on the overlay leaves room for everything admitted and the new grant. */
  lemma {:induction false} VerdictLeavesRoom(rs: seq<Record>, q: Request, base: Snapshot, limits: Limits, engine: RiskEngine)
    requires RespectsCaps(engine) && Under(q, base, limits)
    requires engine(q.policy, Overlay(rs, q.context)).OPEN_ACCEPTED?
    ensures RoomFor(rs, engine(q.policy, Overlay(rs, q.context)).notional, q.context.decision.pair, q.context.decision.strategyId, base, limits)
  {
    hide BuildPending, Sum, Exposure.Reasons, Exposure.Coherent, Newest;
    var overlaid := Overlay(rs, q.context);
    var n := engine(q.policy, overlaid).notional;
    var snapshot := overlaid.exposure.value;
    assert snapshot == base.(pending := BuildPending(base.pending, rs));
    OverlayConserves(base.pending, rs);
    Exposure.SilentMeansFits(snapshot, CandidateOf(q.context.decision), q.policy, n);
    SnapshotFits(snapshot, CandidateOf(q.context.decision), q.policy, n);
  }

  lemma {:induction false} SnapshotFits(s: Snapshot, c: Exposure.Candidate, policy: Policy, n: real)
    requires Exposure.Fits(s, c, policy, n)
    ensures s.pending.KNOWN?
    ensures var global := s.globalOpen + s.pending.global + n; global <= policy.globalMaxOpenNotional && global <= policy.maxConcurrentExposure
    ensures var pair := Held(s.perPairOpen, c.pair) + Held(s.pending.perPair, c.pair) + n;
            pair <= policy.pairMaxExposure && pair <= policy.maxCoinExposure
    ensures Held(s.perStrategyOpen, c.strategyId) + Held(s.pending.perStrategy, c.strategyId) + n <= policy.maxStrategyExposure
    ensures var positions := s.openPositions + s.pending.count + 1;
            positions <= policy.globalMaxConcurrentPositions && positions <= policy.maxConcurrentPositions
  {
  }

  /** A change of one decision's entry that adds `n` to its own pair and strategy and nothing else. */
  lemma {:induction false} GrantFits(entries: Entries, e: Entry, base: Snapshot, limits: Limits)
    requires Keyed(entries) && Fits(Admitted(entries), base, limits) && e.record.status == ADMITTED
    requires Count(entries.values, e.record.decisionId) == 0
    requires RoomFor(Admitted(entries), e.record.notional, e.record.pair, e.record.strategyId, base, limits)
    ensures Fits(Admitted(entries.Set(e.record.decisionId, e)), base, limits)
  {
    hide Sum, Admitted, Keyed, Held;
    var d := e.record.decisionId;
    var rs' := Admitted(entries.Set(d, e));
    SetMembers(entries, d, e);
    Shifted(entries, d, e, Everything());
    forall r | r in rs' ensures PairFits(rs', base, limits, r.pair) && StrategyFits(rs', base, limits, r.strategyId) {
      Shifted(entries, d, e, OfPair(r.pair));
      Shifted(entries, d, e, OfStrategy(r.strategyId));
    }
  }

  lemma {:induction false} Shifted(entries: Entries, key: string, e: Entry, w: Weight)
    requires Keyed(entries) && e.record.status == ADMITTED && Count(entries.values, key) == 0
    ensures Sum(Admitted(entries.Set(key, e)), w) == Sum(Admitted(entries), w) + w(e.record)
    ensures |Admitted(entries.Set(key, e))| == |Admitted(entries)| + 1
  {
    SettingShifts(entries, key, e, w);
  }

  /** Records that weigh no more than others, of pairs and strategies among theirs. */
  ghost predicate Lighter(rs: seq<Record>, than: seq<Record>) {
    && |rs| <= |than| && NothingNegative(rs) && Sum(rs, Everything()) <= Sum(than, Everything())
    && forall r <- rs :: Represented(r, than) && Sum(rs, OfPair(r.pair)) <= Sum(than, OfPair(r.pair))
                         && Sum(rs, OfStrategy(r.strategyId)) <= Sum(than, OfStrategy(r.strategyId))
  }

  predicate Represented(r: Record, rs: seq<Record>) {
    exists other <- rs :: other.pair == r.pair && other.strategyId == r.strategyId
  }

  lemma {:induction false} LighterFits(rs: seq<Record>, than: seq<Record>, base: Snapshot, limits: Limits)
    requires Lighter(rs, than) && Fits(than, base, limits)
    ensures Fits(rs, base, limits)
  {
    hide Sum, Held;
    if rs != [] {
      assert rs[0] in rs;
    }
    forall r | r in rs ensures PairFits(rs, base, limits, r.pair) && StrategyFits(rs, base, limits, r.strategyId) {
      var other :| other in than && other.pair == r.pair && other.strategyId == r.strategyId;
    }
  }

  /** Releasing, consuming or healing an admitted record never adds anything. */
  lemma {:induction false} RefilingFits(entries: Entries, e: Entry, base: Snapshot, limits: Limits)
    requires Keyed(entries) && Fits(Admitted(entries), base, limits) && Count(entries.values, e.record.decisionId) == 1
    requires e.record == entries.values[e.record.decisionId].record.(status := e.record.status)
    ensures Fits(Admitted(entries.Set(e.record.decisionId, e)), base, limits)
  {
    hide Sum, Admitted, Keyed, GlobalFits, PositionsFit, PairFits, StrategyFits;
    var d := e.record.decisionId;
    var rs, rs' := Admitted(entries), Admitted(entries.Set(d, e));
    var before := entries.values[d].record;
    AdmittedIsListed(entries, d);
    SetMembers(entries, d, e);
    Shrinks(entries, d, e, Everything());
    forall r | r in rs'
      ensures Represented(r, rs) && Sum(rs', OfPair(r.pair)) <= Sum(rs, OfPair(r.pair))
              && Sum(rs', OfStrategy(r.strategyId)) <= Sum(rs, OfStrategy(r.strategyId)) {
      Shrinks(entries, d, e, OfPair(r.pair));
      Shrinks(entries, d, e, OfStrategy(r.strategyId));
      assert r in rs || (before in rs && before.pair == r.pair && before.strategyId == r.strategyId);
    }
    LighterFits(rs', rs, base, limits);
  }

  lemma {:induction false} AdmittedIsListed(entries: Entries, d: string)
    requires Keyed(entries) && Count(entries.values, d) == 1
    ensures entries.values[d].record in Admitted(entries)
  {
    AdmittedMembers(entries.keys, entries.values, entries.values[d].record);
    assert d in entries.keys;
  }

  lemma {:induction false} Shrinks(entries: Entries, key: string, e: Entry, w: Weight)
    requires Keyed(entries) && Count(entries.values, key) == 1 && w(entries.values[key].record) >= 0.0
    requires e.record == entries.values[key].record.(status := e.record.status) && w(e.record) == w(entries.values[key].record)
    ensures Sum(Admitted(entries.Set(key, e)), w) <= Sum(Admitted(entries), w)
    ensures |Admitted(entries.Set(key, e))| <= |Admitted(entries)|
  {
    SettingShifts(entries, key, e, w);
  }

  ghost predicate Safe(s: State, base: Snapshot, limits: Limits) {
    Inv(s) && Fits(Admitted(s.byDecision), base, limits)
  }

  lemma {:induction false} AdmitIsSafe(s: State, q: Request, engine: RiskEngine, base: Snapshot, limits: Limits)
    requires Safe(s, base, limits) && RespectsCaps(engine) && Under(q, base, limits)
    ensures Safe(Admit(s, q, engine).0, base, limits)
  {
    hide Inv, Fits, Overlay, Admitted, Resubmitted, Grant, NewRecord, RespectsCaps, Under;
    AdmitInv(s, q, engine);
    if s.faulted {
    } else if Count(s.byDecision.values, q.context.decision.decisionId) == 1 {
      ResubmissionFits(s, q, engine, base, limits);
    } else {
      FreshFits(s, q, engine, base, limits);
    }
  }

  lemma {:induction false} ResubmissionFits(s: State, q: Request, engine: RiskEngine, base: Snapshot, limits: Limits)
    requires Safe(s, base, limits) && Count(s.byDecision.values, q.context.decision.decisionId) == 1
    ensures var e := s.byDecision.values[q.context.decision.decisionId];
            Fits(Admitted(Resubmitted(s, q, engine, e).0.byDecision), base, limits)
  {
    hide Inv, Overlay, Fits, Keyed, Admitted;
    var d := q.context.decision.decisionId;
    var e := s.byDecision.values[d];
    FiledUnderBoth(s, d);
    forall decision ensures Fits(Admitted(s.byDecision.Set(d, e.(decision := decision))), base, limits) {
      RefilingFits(s.byDecision, e.(decision := decision), base, limits);
    }
  }

  lemma {:induction false} FreshFits(s: State, q: Request, engine: RiskEngine, base: Snapshot, limits: Limits)
    requires Safe(s, base, limits) && RespectsCaps(engine) && Under(q, base, limits)
    requires Count(s.byDecision.values, q.context.decision.decisionId) == 0
    ensures var overlaid := Overlay(Admitted(s.byDecision), q.context);
            var verdict := engine(q.policy, overlaid);
            verdict.OPEN_ACCEPTED? ==>
              Fits(Admitted(Grant(s, Entry(NewRecord(s, q, overlaid, verdict.notional, verdict.margin), Some(verdict), None)).byDecision), base, limits)
  {
    var rs := Admitted(s.byDecision);
    var overlaid := Overlay(rs, q.context);
    var verdict := engine(q.policy, overlaid);
    assert Keyed(s.byDecision);
    if verdict.OPEN_ACCEPTED? {
      VerdictLeavesRoom(rs, q, base, limits, engine);
      var e := Entry(NewRecord(s, q, overlaid, verdict.notional, verdict.margin), Some(verdict), None);
      hide Inv, Overlay, Fits, Keyed, Admitted, RespectsCaps, Under, Sum, NextGeneration;
      GrantFits(s.byDecision, e, base, limits);
    }
  }

  lemma {:induction false} ReleaseIsSafe(s: State, id: AdmissionId, base: Snapshot, limits: Limits)
    requires Safe(s, base, limits)
    ensures Safe(Release(s, id).0, base, limits)
  {
    ReleaseInv(s, id);
    if id in s.byAdmission && s.byAdmission[id].record.status == ADMITTED {
      assert Historic(s, id) && Current(s, s.byAdmission[id].record.decisionId) && Keyed(s.byDecision);
      var e := s.byAdmission[id];
      hide Inv, Fits, Keyed, Admitted;
      RefilingFits(s.byDecision, e.(record := e.record.(status := RELEASED)), base, limits);
    }
  }

  lemma {:induction false} ConsumeIsSafe(s: State, id: AdmissionId, intentId: string, base: Snapshot, limits: Limits)
    requires Safe(s, base, limits)
    ensures Safe(Consume(s, id, intentId).0, base, limits)
  {
    ConsumeInv(s, id, intentId);
    if id in s.byAdmission && s.byAdmission[id].record.status == ADMITTED {
      assert Historic(s, id) && Current(s, s.byAdmission[id].record.decisionId) && Keyed(s.byDecision);
      var e := s.byAdmission[id];
      hide Inv, Fits, Keyed, Admitted;
      RefilingFits(s.byDecision, e.(consumedBy := Some(intentId)), base, limits);
    }
  }

  lemma {:induction false} AdmittedFit(ss: seq<State>, ops: seq<Operation>, engine: RiskEngine, base: Snapshot, limits: Limits, j: nat)
    requires History(ss, ops, engine) && RespectsCaps(engine) && j < |ss| && Fits(Admitted(ss[0].byDecision), base, limits)
    requires forall i :: 0 <= i < |ops| ==> !Restoring(ops[i]) && (ops[i].DoAdmit? ==> Under(ops[i].request, base, limits))
    ensures Fits(Admitted(ss[j].byDecision), base, limits) && Inv(ss[j])
  {
    hide Inv, Fits, RespectsCaps, Under, Admit, Release, Consume, Admitted, Allowed, Risen;
    HistoryKeeps(ss, ops, engine, j, j);
    if j > 0 {
      AdmittedFit(ss, ops, engine, base, limits, j - 1);
      HistoryKeeps(ss, ops, engine, j - 1, j - 1);
      match ops[j - 1]
      case DoAdmit(q) => AdmitIsSafe(ss[j - 1], q, engine, base, limits);
      case DoRelease(id) => ReleaseIsSafe(ss[j - 1], id, base, limits);
      case DoConsume(id, intentId) => ConsumeIsSafe(ss[j - 1], id, intentId, base, limits);
      case DoFault =>
    }
  }

  // ------------------------------------------------- any choice of decisions

  /** Different decisions that hold an admission, and their records. */
  predicate HoldAdmissions(s: State, ds: seq<string>) {
    && (forall i, j :: 0 <= i < j < |ds| ==> ds[i] != ds[j])
    && (forall d <- ds :: d in s.byDecision.values && s.byDecision.values[d].record.status == ADMITTED)
  }

  function RecordsOf(ds: seq<string>, values: map<string, Entry>): seq<Record>
    requires forall d <- ds :: d in values
  {
    if ds == [] then [] else RecordsOf(ds[..|ds| - 1], values) + [values[ds[|ds| - 1]].record]
  }

  lemma {:induction false} RecordsConcatenate(a: seq<string>, b: seq<string>, values: map<string, Entry>)
    requires forall d <- a + b :: d in values
    ensures (forall d <- a :: d in values) && (forall d <- b :: d in values)
    ensures RecordsOf(a + b, values) == RecordsOf(a, values) + RecordsOf(b, values)
  {
    assert forall d <- a :: d in a + b;
    assert forall d <- b :: d in a + b;
    if b == [] {
      assert a + b == a;
    } else {
      assert (a + b)[..|a + b| - 1] == a + b[..|b| - 1];
      assert forall d <- a + b[..|b| - 1] :: d in a + b;
      RecordsConcatenate(a, b[..|b| - 1], values);
    }
  }

  /** Taking one decision out takes out its weight. */
  lemma {:induction false} TakenOut(ds: seq<string>, i: nat, values: map<string, Entry>, w: Weight)
    requires (forall d <- ds :: d in values) && i < |ds|
    ensures var rest := ds[..i] + ds[i + 1..];
            && (forall d <- rest :: d in values)
            && Sum(RecordsOf(ds, values), w) == Sum(RecordsOf(rest, values), w) + w(values[ds[i]].record)
            && |RecordsOf(ds, values)| == |RecordsOf(rest, values)| + 1
  {
    var a, b, one := ds[..i], ds[i + 1..], [ds[i]];
    assert forall d <- a + b :: d in ds;
    assert ds == a + one + b;
    assert forall d <- a + one :: d in ds;
    RecordsConcatenate(a + one, b, values);
    RecordsConcatenate(a, one, values);
    RecordsConcatenate(a, b, values);
    assert RecordsOf(one, values) == [values[ds[i]].record];
    hide RecordsOf;
    var r := values[ds[i]].record;
    SumAppends(RecordsOf(a, values) + [r], RecordsOf(b, values), w);
    SumAppends(RecordsOf(a, values), [r], w);
    SumAppends(RecordsOf(a, values), RecordsOf(b, values), w);
    assert Sum([r], w) == Sum([], w) + w(r);
  }

  /** The admitted records weigh at least what any choice among them does. */
  lemma {:induction false} ChoiceWeighsLess(keys: seq<string>, values: map<string, Entry>, ds: seq<string>, w: Weight)
    requires forall i, j :: 0 <= i < j < |ds| ==> ds[i] != ds[j]
    requires forall d <- ds :: d in keys && d in values && values[d].record.status == ADMITTED
    requires forall k <- keys :: k in values && values[k].record.status == ADMITTED ==> w(values[k].record) >= 0.0
    ensures Sum(RecordsOf(ds, values), w) <= Sum(AdmittedOf(keys, values), w)
    ensures |RecordsOf(ds, values)| <= |AdmittedOf(keys, values)|
  {
    if keys == [] {
      FirstIsMember(ds);
    } else {
      var front, last := keys[..|keys| - 1], keys[|keys| - 1];
      hide RecordsOf, AdmittedOf, Sum;
      LastSum(keys, values, w);
      assert keys == front + [last];
      if last in ds {
        var i :| 0 <= i < |ds| && ds[i] == last;
        TakenOut(ds, i, values, w);
        RestDiffers(ds, i);
        ChoiceWeighsLess(front, values, ds[..i] + ds[i + 1..], w);
      } else {
        ChoiceWeighsLess(front, values, ds, w);
      }
    }
  }

  lemma {:induction false} FirstIsMember(ds: seq<string>)
    ensures ds == [] || ds[0] in ds
  {
  }

  lemma {:induction false} RestDiffers(ds: seq<string>, i: nat)
    requires i < |ds| && forall j, k :: 0 <= j < k < |ds| ==> ds[j] != ds[k]
    ensures var rest := ds[..i] + ds[i + 1..];
            && (forall j, k :: 0 <= j < k < |rest| ==> rest[j] != rest[k])
            && (forall d <- rest :: d in ds && d != ds[i])
  {
    var rest := ds[..i] + ds[i + 1..];
    forall j | 0 <= j < |rest| ensures rest[j] == ds[if j < i then j else j + 1] {
    }
  }

  lemma {:induction false} RecordsAreOf(ds: seq<string>, values: map<string, Entry>, r: Record)
    requires (forall d <- ds :: d in values) && r in RecordsOf(ds, values)
    ensures exists d <- ds :: values[d].record == r
  {
    var front, last := ds[..|ds| - 1], ds[|ds| - 1];
    if r in RecordsOf(front, values) {
      RecordsAreOf(front, values, r);
      var d :| d in front && values[d].record == r;
      assert d in ds;
    }
  }

  lemma {:induction false} ChoiceIsAdmitted(s: State, ds: seq<string>, r: Record)
    requires Keyed(s.byDecision) && HoldAdmissions(s, ds) && r in RecordsOf(ds, s.byDecision.values)
    ensures r in Admitted(s.byDecision)
  {
    RecordsAreOf(ds, s.byDecision.values, r);
    var d :| d in ds && s.byDecision.values[d].record == r;
    AdmittedMembers(s.byDecision.keys, s.byDecision.values, r);
    assert d in s.byDecision.keys;
  }

  lemma {:induction false} ChoiceWeighs(s: State, ds: seq<string>, w: Weight)
    requires Keyed(s.byDecision) && HoldAdmissions(s, ds) && (forall r <- Admitted(s.byDecision) :: w(r) >= 0.0)
    ensures Sum(RecordsOf(ds, s.byDecision.values), w) <= Sum(Admitted(s.byDecision), w)
    ensures |RecordsOf(ds, s.byDecision.values)| <= |Admitted(s.byDecision)|
  {
    var keys, values := s.byDecision.keys, s.byDecision.values;
    forall k | k in keys && k in values && values[k].record.status == ADMITTED ensures w(values[k].record) >= 0.0 {
      AdmittedMembers(keys, values, values[k].record);
    }
    ChoiceWeighsLess(keys, values, ds, w);
  }

  lemma {:induction false} ChoiceFits(s: State, ds: seq<string>, base: Snapshot, limits: Limits)
    requires Inv(s) && Fits(Admitted(s.byDecision), base, limits) && HoldAdmissions(s, ds)
    ensures Fits(RecordsOf(ds, s.byDecision.values), base, limits)
  {
    hide Keyed, Current, Historic, HoldAdmissions, Sum, Admitted, RecordsOf, Fits, Lighter, Represented;
    HeldAreFiled(s, ds);
    FitsMeansNonNegative(Admitted(s.byDecision), base, limits);
    ChoiceIsLighter(s, ds);
    LighterFits(RecordsOf(ds, s.byDecision.values), Admitted(s.byDecision), base, limits);
  }

  lemma {:induction false} FitsMeansNonNegative(rs: seq<Record>, base: Snapshot, limits: Limits)
    requires Fits(rs, base, limits)
    ensures NothingNegative(rs)
  {
  }

  lemma {:induction false} ChoiceIsLighter(s: State, ds: seq<string>)
    requires Keyed(s.byDecision) && NothingNegative(Admitted(s.byDecision)) && HoldAdmissions(s, ds)
    ensures (forall d <- ds :: d in s.byDecision.values) && Lighter(RecordsOf(ds, s.byDecision.values), Admitted(s.byDecision))
  {
    hide Keyed, HoldAdmissions, Sum, Admitted, RecordsOf;
    HeldAreFiled(s, ds);
    var rs, all := RecordsOf(ds, s.byDecision.values), Admitted(s.byDecision);
    ChoiceWeighs(s, ds, Everything());
    forall r | r in rs
      ensures r in all && Sum(rs, OfPair(r.pair)) <= Sum(all, OfPair(r.pair))
              && Sum(rs, OfStrategy(r.strategyId)) <= Sum(all, OfStrategy(r.strategyId)) {
      ChoiceIsAdmitted(s, ds, r);
      ChoiceWeighs(s, ds, OfPair(r.pair));
      ChoiceWeighs(s, ds, OfStrategy(r.strategyId));
    }
  }

  lemma {:induction false} HeldAreFiled(s: State, ds: seq<string>)
    requires HoldAdmissions(s, ds)
    ensures forall d <- ds :: d in s.byDecision.values
  {
  }

  /** The cap theorem: over every history of admissions, releases, consumptions and faults under a fixed base and fixed
      limits, whatever the engine's other checks are, any choice of different decisions that hold an admission fits, on top
      of what is open and was pending, within every single limit of the policy at every moment. */
  lemma {:induction false} CapsAreNeverOversubscribed(ss: seq<State>, ops: seq<Operation>, engine: RiskEngine, base: Snapshot, limits: Limits,
                                                      j: nat, ds: seq<string>)
    requires History(ss, ops, engine) && RespectsCaps(engine) && j < |ss| && Fits(Admitted(ss[0].byDecision), base, limits)
    requires forall i :: 0 <= i < |ops| ==> !Restoring(ops[i]) && (ops[i].DoAdmit? ==> Under(ops[i].request, base, limits))
    requires HoldAdmissions(ss[j], ds)
    ensures (forall d <- ds :: d in ss[j].byDecision.values) && Fits(RecordsOf(ds, ss[j].byDecision.values), base, limits)
  {
    hide Inv, Fits, RespectsCaps, Under, History, Restoring, HoldAdmissions;
    AdmittedFit(ss, ops, engine, base, limits, j);
    HeldAreFiled(ss[j], ds);
    ChoiceFits(ss[j], ds, base, limits);
  }
}
