/** What each outcome of an admission means, in terms of the state's maps, the request and the engine's verdict. */
module AdmissionOutcomes {
  import opened Common
  import opened Admission
  import opened AdmissionTheorems
  import opened AdmissionCaps

  /** The decision still holds an admission. */
  predicate Holding(s: State, decisionId: string) {
    decisionId in s.byDecision.values && s.byDecision.values[decisionId].record.status == ADMITTED
  }

  /** How far the instance has come; one never seen is at zero. */
  function Reached(s: State, instanceId: string): int {
    if instanceId in s.sequences then s.sequences[instanceId] else 0
  }

  /** A record that grants just what was asked: the decision's own identity and side, and the verdict's notional and margin. */
  predicate Grants(r: Record, q: Request, notional: real, margin: real) {
    var d := q.context.decision;
    && r.decisionId == d.decisionId && r.instanceId == d.instanceId && r.strategyId == d.strategyId && r.strategyVersion == d.strategyVersion
    && r.parameterHash == d.parameterHash && r.pair == d.pair && r.sequence == d.sequence && r.direction == d.target != FLAT
    && r.notional == notional && r.margin == margin && r.status == ADMITTED
  }

  /** The records that stand for everything a state has admitted: any weight of theirs is that of the decisions holding one. */
  ghost predicate Represents(rs: seq<Record>, s: State, except: set<string>) {
    && (forall r <- rs :: Holding(s, r.decisionId) && r.decisionId !in except && s.byDecision.values[r.decisionId].record == r)
    && (forall d <- s.byDecision.values :: Holding(s, d) && d !in except ==> s.byDecision.values[d].record in rs)
    && (forall i, j :: 0 <= i < j < |rs| ==> rs[i].decisionId != rs[j].decisionId)
  }

  lemma {:induction false} ListsOnce(keys: seq<string>, s: State, except: set<string>, rs: seq<Record>)
    requires forall i, j :: 0 <= i < j < |keys| ==> keys[i] != keys[j]
    requires forall d <- s.byDecision.values :: s.byDecision.values[d].record.decisionId == d
    requires rs == AdmittedOf(keys, s.byDecision.values) && forall k <- keys :: k !in except
    ensures forall r <- rs :: r.decisionId in keys && Holding(s, r.decisionId) && r.decisionId !in except
                              && s.byDecision.values[r.decisionId].record == r
    ensures forall k <- keys :: Holding(s, k) ==> s.byDecision.values[k].record in rs
    ensures forall i, j :: 0 <= i < j < |rs| ==> rs[i].decisionId != rs[j].decisionId
  {
    if keys != [] {
      var front, last := keys[..|keys| - 1], keys[|keys| - 1];
      ListsOnce(front, s, except, AdmittedOf(front, s.byDecision.values));
      assert keys == front + [last];
    }
  }

  lemma {:induction false} LastIsNew(keys: seq<string>)
    requires keys != [] && forall i, j :: 0 <= i < j < |keys| ==> keys[i] != keys[j]
    ensures keys[|keys| - 1] !in keys[..|keys| - 1]
  {
  }

  lemma {:induction false} WithoutUnfolds(keys: seq<string>, key: string)
    requires keys != []
    ensures Without(keys, key) ==
            Without(keys[..|keys| - 1], key) + (if keys[|keys| - 1] == key then [] else [keys[|keys| - 1]])
  {
  }

  lemma {:induction false} WithoutContents(keys: seq<string>, key: string)
    requires forall i, j :: 0 <= i < j < |keys| ==> keys[i] != keys[j]
    ensures forall k :: k in Without(keys, key) <==> k in keys && k != key
    ensures forall i, j :: 0 <= i < j < |Without(keys, key)| ==> Without(keys, key)[i] != Without(keys, key)[j]
  {
    if keys != [] {
      var front, last := keys[..|keys| - 1], keys[|keys| - 1];
      WithoutContents(front, key);
      assert keys == front + [last];
      assert last !in front by {
        hide *;
        LastIsNew(keys);
      }
      hide Without;
      assert Without(keys, key) == Without(front, key) + (if last == key then [] else [last]) by {
        WithoutUnfolds(keys, key);
      }
    }
  }

  lemma {:induction false} AdmittedRepresent(s: State)
    requires Inv(s)
    ensures Represents(Admitted(s.byDecision), s, {})
  {
    KeyedByDecision(s);
    ListsOnce(s.byDecision.keys, s, {}, Admitted(s.byDecision));
  }

  lemma {:induction false} OthersRepresent(s: State, key: string)
    requires Inv(s)
    ensures Represents(AdmittedOf(Without(s.byDecision.keys, key), s.byDecision.values), s, {key})
  {
    KeyedByDecision(s);
    WithoutContents(s.byDecision.keys, key);
    ListsOnce(Without(s.byDecision.keys, key), s, {key}, AdmittedOf(Without(s.byDecision.keys, key), s.byDecision.values));
  }

  lemma {:induction false} KeyedByDecision(s: State)
    requires Inv(s)
    ensures Keyed(s.byDecision) && forall d <- s.byDecision.values :: s.byDecision.values[d].record.decisionId == d
  {
    forall d | d in s.byDecision.values ensures s.byDecision.values[d].record.decisionId == d {
      assert Current(s, d);
    }
  }

  /** The engine is asked about the base plus everything that other decisions have been granted. */
  function Asked(q: Request, rs: seq<Record>): Context {
    if q.context.exposure.None? then q.context
    else
      var base := q.context.exposure.value;
      q.context.(exposure := Some(base.(pending := BuildPending(base.pending, rs))))
  }

  /** A first submission. A faulted coordinator throws; a decision that its instance has overtaken is stale; otherwise the
      engine's verdict on everything admitted decides: only an opening that is not to FLAT is granted, exactly as asked, and
      nothing else changes the state. */
  lemma {:induction false} FirstSubmissionExactly(s: State, q: Request, engine: RiskEngine) returns (rs: seq<Record>)
    requires Inv(s) && !Holding(s, q.context.decision.decisionId)
    ensures Represents(rs, s, {})
    ensures var (s', outcome) := Admit(s, q, engine);
            var d := q.context.decision;
            var verdict := engine(q.policy, Asked(q, rs));
            if s.faulted then s' == s && outcome == Thrown
            else if d.sequence < Reached(s, d.instanceId) then s' == s && outcome == Stale(Reached(s, d.instanceId))
            else match verdict
              case REJECTED => s' == s && outcome == Refused
              case CLOSE_ACCEPTED => s' == s && outcome == NoCapacityOwned
              case OTHER_ACCEPTED => s' == s && outcome == Thrown
              case OPEN_ACCEPTED(notional, margin) =>
                if d.target == FLAT then s' == s && outcome == Thrown
                else
                  && outcome.Admission? && outcome.decision == verdict && Grants(outcome.record, q, notional, margin)
                  && Holding(s', d.decisionId) && s'.byDecision.values[d.decisionId] == Entry(outcome.record, Some(verdict), None)
                  && (forall other <- s'.byDecision.values :: other != d.decisionId ==>
                        other in s.byDecision.values && s'.byDecision.values[other] == s.byDecision.values[other])
                  && d.instanceId in s'.sequences && s'.sequences[d.instanceId] == d.sequence
  {
    rs := Admitted(s.byDecision);
    AdmittedRepresent(s);
    hide Inv, Represents, BuildPending, NextGeneration;
  }

  /** A decision that still holds its admission is not granted another: the answer is the record it holds. After a restoration,
      which loses the verdict, it is given only if the engine, asked about everything that the others hold, comes to the very
      same risk decision. */
  lemma {:induction false} ResubmissionExactly(s: State, q: Request, engine: RiskEngine) returns (rs: seq<Record>)
    requires Inv(s) && !s.faulted && Holding(s, q.context.decision.decisionId)
    ensures Represents(rs, s, {q.context.decision.decisionId})
    ensures var (s', outcome) := Admit(s, q, engine);
            var held := s.byDecision.values[q.context.decision.decisionId];
            var verdict := engine(q.policy, Asked(q, rs));
            if held.decision.Some? then s' == s && outcome == Admission(held.record, held.decision.value)
            else if verdict.OPEN_ACCEPTED?
                    && held.record.riskDecisionId == RiskDecisionId(q.policy, Asked(q, rs), verdict.notional, verdict.margin)
            then outcome == Admission(held.record, verdict)
                 && s'.byDecision.values == s.byDecision.values[q.context.decision.decisionId := held.(decision := Some(verdict))]
            else s' == s && outcome == Thrown
  {
    hide Inv, Represents, BuildPending, NextGeneration, Keyed, Admitted, AdmittedOf, Without, Overlay, Asked, Filed;
    var d := q.context.decision.decisionId;
    rs := AdmittedOf(Without(s.byDecision.keys, d), s.byDecision.values);
    OthersRepresent(s, d);
    FiledUnderBoth(s, d);
    AskedIsOverlay(q, rs);
    forall decision ensures var e := s.byDecision.values[d].(decision := decision);
                            Filed(s, e).byDecision.values == s.byDecision.values[d := e] {
      FiledValues(s, s.byDecision.values[d].(decision := decision));
    }
  }

  lemma {:induction false} AskedIsOverlay(q: Request, rs: seq<Record>)
    ensures Asked(q, rs) == Overlay(rs, q.context)
  {
    hide BuildPending;
  }

  lemma {:induction false} FiledValues(s: State, e: Entry)
    ensures Filed(s, e).byDecision.values == s.byDecision.values[e.record.decisionId := e]
  {
  }

  /** What storage may hand back: admitted records of different decisions, each instance's sequence once and not negative, and
      generations from 1. */
  predicate Restorable(b: Batch) {
    && (forall r <- b.records :: r.status == ADMITTED)
    && (forall i, j :: 0 <= i < j < |b.records| ==> b.records[i].decisionId != b.records[j].decisionId)
    && (forall w <- b.sequences :: 0 <= w.1 <= MAX_SAFE_INTEGER) && (forall w <- b.generations :: 1 <= w.1 <= MAX_SAFE_INTEGER)
    && (forall i, j :: 0 <= i < j < |b.sequences| ==> b.sequences[i].0 != b.sequences[j].0)
  }

  /** Start-up restoration and fault recovery refuse anything else, and what they restore is exactly the admissions read back,
      none of them consumed or with a verdict. */
  lemma {:induction false} RestorationExactly(s: State, b: Batch)
    ensures Restore(s, b).Some? <==> !s.faulted && !s.known && Restorable(b)
    ensures RestoreAuthoritative(s, b).Some? <==> Restorable(b)
    ensures Restorable(b) ==> forall s' | Some(s') == Restore(s, b) || Some(s') == RestoreAuthoritative(s, b) ::
              && s'.known && (Some(s') == RestoreAuthoritative(s, b) ==> !s'.faulted)
              && (forall d :: d in s'.byDecision.values <==> exists r <- b.records :: r.decisionId == d)
              && (forall r <- b.records :: r.decisionId in s'.byDecision.values && s'.byDecision.values[r.decisionId] == Entry(r, None, None))
  {
    if Restorable(b) {
      EntriesRestoredExactly(b.records);
    }
    hide RestoredEntries, RestoredIds, RestoredSequences, RestoredGenerations, CurrentIds;
  }

  lemma {:induction false} LastRestored(rs: seq<Record>)
    requires rs != []
    ensures RestoredEntries(rs).values == RestoredEntries(rs[..|rs| - 1]).values[rs[|rs| - 1].decisionId := Entry(rs[|rs| - 1], None, None)]
  {
  }

  lemma {:induction false} EntriesRestoredExactly(rs: seq<Record>)
    requires forall i, j :: 0 <= i < j < |rs| ==> rs[i].decisionId != rs[j].decisionId
    ensures var values := RestoredEntries(rs).values;
            && (forall d :: d in values <==> exists r <- rs :: r.decisionId == d)
            && (forall r <- rs :: r.decisionId in values && values[r.decisionId] == Entry(r, None, None))
  {
    if rs != [] {
      var front, last := rs[..|rs| - 1], rs[|rs| - 1];
      EntriesRestoredExactly(front);
      hide RestoredEntries;
      LastRestored(rs);
      assert rs == front + [last];
      forall r | r in front ensures r.decisionId != last.decisionId {
        var k :| 0 <= k < |front| && front[k] == r;
        assert rs[k].decisionId != rs[|rs| - 1].decisionId;
      }
    }
  }
}
