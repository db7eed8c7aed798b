/** Whole histories of one account's admissions, restorations included. */
module AdmissionHistories {
  import opened Common
  import opened Admission
  import opened AdmissionTheorems

  datatype Operation =
    | DoAdmit(request: Request)
    | DoRelease(id: AdmissionId)
    | DoConsume(id: AdmissionId, intentId: string)
    | DoFault
    | DoRestore(batch: Batch)
    | DoRecover(batch: Batch)

  function Apply(s: State, op: Operation, engine: RiskEngine): State {
    match op
    case DoAdmit(q) => Admit(s, q, engine).0
    case DoRelease(id) => Release(s, id).0
    case DoConsume(id, intentId) => Consume(s, id, intentId).0
    case DoFault => s.(faulted := true)
    case DoRestore(b) => Restore(s, b).GetOr(s)
    case DoRecover(b) => RestoreAuthoritative(s, b).GetOr(s)
  }

  predicate Restoring(op: Operation) {
    op.DoRestore? || op.DoRecover?
  }

  /** Durable storage has forgotten nothing: its watermarks cover every generation and sequence ever used. */
  ghost predicate Complete(s: State, b: Batch) {
    && (forall r <- b.records :: Genuine(r))
    && (forall d: string :: Latest(s.generations, d) <= Latest(RestoredGenerations(b.records, b.generations), d))
    && (forall i: string :: Latest(s.sequences, i) <= Latest(RestoredSequences(b.sequences), i))
  }

  ghost predicate Allowed(s: State, op: Operation) {
    Restoring(op) ==> Complete(s, op.batch)
  }

  // ---------------------------------------------------------- restorations

  lemma {:induction false} EntriesRestored(rs: seq<Record>)
    requires RecordsValid(rs)
    ensures Keyed(RestoredEntries(rs))
    ensures forall r <- rs :: r.decisionId in RestoredEntries(rs).values && RestoredEntries(rs).values[r.decisionId] == RestoredEntry(r)
    ensures forall key <- RestoredEntries(rs).values :: exists r <- rs :: r.decisionId == key
  {
    if rs != [] {
      var front, last := rs[..|rs| - 1], rs[|rs| - 1];
      EntriesRestored(front);
      SettingKeepsKeys(RestoredEntries(front), last.decisionId, RestoredEntry(last));
      hide Keyed;
      forall key | key in RestoredEntries(rs).values ensures exists r <- rs :: r.decisionId == key {
        if key == last.decisionId {
          assert last in rs;
        } else {
          var r :| r in front && r.decisionId == key;
          assert r in rs;
        }
      }
    }
  }

  lemma {:induction false} IdsRestored(rs: seq<Record>, ids: map<AdmissionId, Entry>)
    requires RecordsValid(rs) && forall r <- rs :: Genuine(r)
    ensures forall r <- rs :: r.id in RestoredIds(rs, ids) && RestoredIds(rs, ids)[r.id] == RestoredEntry(r)
    ensures forall id <- RestoredIds(rs, ids) ::
              (id in ids && RestoredIds(rs, ids)[id] == ids[id])
              || (RestoredIds(rs, ids)[id].record in rs && RestoredIds(rs, ids)[id] == RestoredEntry(RestoredIds(rs, ids)[id].record)
                  && RestoredIds(rs, ids)[id].record.id == id)
  {
    if rs != [] {
      var front, last := rs[..|rs| - 1], rs[|rs| - 1];
      IdsRestored(front, ids);
      forall r | r in front ensures r.id != last.id {
        var k :| 0 <= k < |front| && front[k] == r;
        assert rs[k].decisionId != rs[|rs| - 1].decisionId;
        assert rs[k] in rs && last in rs;
        assert Genuine(r) && Genuine(last);
      }
    }
  }

  lemma {:induction false} GenerationsRestored(rs: seq<Record>, ws: seq<(string, int)>)
    requires RecordsValid(rs)
    ensures forall r <- rs :: r.generation <= Latest(RestoredGenerations(rs, ws), r.decisionId)
  {
    if ws != [] {
      GenerationsRestored(rs, ws[..|ws| - 1]);
    } else {
      RecordsGenerations(rs);
    }
  }

  lemma {:induction false} RecordsGenerations(rs: seq<Record>)
    requires RecordsValid(rs)
    ensures forall r <- rs :: Latest(RecordGenerations(rs), r.decisionId) == r.generation
  {
    if rs != [] {
      var front, last := rs[..|rs| - 1], rs[|rs| - 1];
      RecordsGenerations(front);
      forall r | r in front ensures r.decisionId != last.decisionId {
        var k :| 0 <= k < |front| && front[k] == r;
        assert rs[k].decisionId != rs[|rs| - 1].decisionId;
      }
    }
  }

  /** Only released records of superseded generations may stay in the index by id. */
  lemma {:induction false} ReplacementInv(s: State, b: Batch, ids: map<AdmissionId, Entry>)
    requires Inv(s) && BatchValid(b) && Complete(s, b)
    requires forall id <- ids :: id in s.byAdmission && ids[id] == s.byAdmission[id] && ids[id].record.status == RELEASED
    ensures Inv(Replaced(s, b, ids))
  {
    var s' := Replaced(s, b, ids);
    EntriesRestored(b.records);
    IdsRestored(b.records, ids);
    GenerationsRestored(b.records, b.generations);
    hide Keyed, RestoredEntries, RestoredIds, RestoredGenerations, RestoredSequences, Genuine, Latest;
    forall key | key in s'.byDecision.values ensures Current(s', key) {
      var r :| r in b.records && r.decisionId == key;
    }
    forall id | id in s'.byAdmission ensures Historic(s', id) {
      if id in ids && s'.byAdmission[id] == ids[id] {
        assert Historic(s, id);
      }
    }
  }

  lemma {:induction false} RestoreInv(s: State, b: Batch)
    requires Inv(s) && Complete(s, b)
    ensures Inv(Restore(s, b).GetOr(s))
  {
    if !s.faulted && !s.known && BatchValid(b) {
      ReplacementInv(s, b, s.byAdmission);
    }
    hide Inv, BatchValid, Replaced;
  }

  lemma {:induction false} RecoverInv(s: State, b: Batch)
    requires Inv(s) && Complete(s, b)
    ensures Inv(RestoreAuthoritative(s, b).GetOr(s))
  {
    if BatchValid(b) {
      var ids := s.byAdmission - CurrentIds(s.byDecision);
      forall id | id in ids ensures ids[id].record.status == RELEASED {
        assert Historic(s, id);
      }
      ReplacementInv(s, b, ids);
      Unfaulted(Replaced(s, b, ids));
    }
    hide Inv, BatchValid, Replaced;
  }

  lemma {:induction false} Unfaulted(s: State)
    requires Inv(s)
    ensures forall faulted :: Inv(s.(faulted := faulted))
  {
    forall faulted ensures Inv(s.(faulted := faulted)) {
      var s' := s.(faulted := faulted);
      hide Keyed;
      forall key | key in s'.byDecision.values ensures Current(s', key) {
        assert Current(s, key);
      }
      forall id | id in s'.byAdmission ensures Historic(s', id) {
        assert Historic(s, id);
      }
    }
  }

  lemma {:induction false} ApplyInv(s: State, op: Operation, engine: RiskEngine)
    requires Inv(s) && Allowed(s, op)
    ensures Inv(Apply(s, op, engine))
  {
    hide Inv, Admit, Release, Consume, Restore, RestoreAuthoritative, Complete;
    match op
    case DoAdmit(q) => AdmitInv(s, q, engine);
    case DoRelease(id) => ReleaseInv(s, id);
    case DoConsume(id, intentId) => ConsumeInv(s, id, intentId);
    case DoFault => Unfaulted(s);
    case DoRestore(b) => RestoreInv(s, b);
    case DoRecover(b) => RecoverInv(s, b);
  }

  // ------------------------------------------------------------- watermarks

  /** Watermarks never fall, neither those of the instances' sequences nor those of the decisions' generations. */
  ghost predicate Risen(s: State, s': State) {
    && (forall d: string :: Latest(s.generations, d) <= Latest(s'.generations, d))
    && (forall i: string :: Latest(s.sequences, i) <= Latest(s'.sequences, i))
  }

  lemma {:induction false} ApplyRaises(s: State, op: Operation, engine: RiskEngine)
    requires Inv(s) && Allowed(s, op)
    ensures Risen(s, Apply(s, op, engine))
  {
    match op
    case DoAdmit(q) => AdmitRaises(s, q, engine);
    case DoRelease(_) =>
    case DoConsume(_, _) =>
    case DoFault =>
    case DoRestore(b) => hide Inv, BatchValid, RestoredEntries, RestoredIds;
    case DoRecover(b) => hide Inv, BatchValid, RestoredEntries, RestoredIds;
  }

  lemma {:induction false} AdmitRaises(s: State, q: Request, engine: RiskEngine)
    requires Inv(s)
    ensures Risen(s, Admit(s, q, engine).0)
  {
    NextIsNewest(s, q.context.decision.decisionId);
    hide Inv, Overlay, NextGeneration;
  }

  // ------------------------------------------------------------ consumption

  predicate ConsumedBy(s: State, id: AdmissionId, intentId: string) {
    id in s.byAdmission && s.byAdmission[id].consumedBy == Some(intentId)
  }

  /** Until a restoration, a consumption marker stays: through releases, resubmissions and new generations. */
  lemma {:induction false} MarkersStay(s: State, op: Operation, engine: RiskEngine, id: AdmissionId, intentId: string)
    requires Inv(s) && !Restoring(op) && ConsumedBy(s, id, intentId)
    ensures ConsumedBy(Apply(s, op, engine), id, intentId)
  {
    match op
    case DoAdmit(q) => AdmitKeepsMarkers(s, q, engine, id, intentId);
    case DoRelease(_) => hide Inv;
    case DoConsume(_, _) => hide Inv;
    case DoFault => hide Inv;
  }

  lemma {:induction false} AdmitKeepsMarkers(s: State, q: Request, engine: RiskEngine, id: AdmissionId, intentId: string)
    requires Inv(s) && ConsumedBy(s, id, intentId)
    ensures ConsumedBy(Admit(s, q, engine).0, id, intentId)
  {
    hide Inv, Overlay, NewRecord, Admitted, Genuine;
    var d := q.context.decision.decisionId;
    if d in s.byDecision.values {
      FiledUnderBoth(s, d);
    }
    var overlaid := Overlay(Admitted(s.byDecision), q.context);
    var verdict := engine(q.policy, overlaid);
    if verdict.OPEN_ACCEPTED? {
      OverlayKeepsDecision(Admitted(s.byDecision), q.context);
      FreshAdmission(s, q, overlaid, verdict.notional, verdict.margin);
    }
  }

  // ------------------------------------------------------------- histories

  ghost predicate History(ss: seq<State>, ops: seq<Operation>, engine: RiskEngine) {
    && |ss| == |ops| + 1 && Inv(ss[0])
    && forall i :: 0 <= i < |ops| ==> Allowed(ss[i], ops[i]) && ss[i + 1] == Apply(ss[i], ops[i], engine)
  }

  lemma {:induction false} HistoryKeeps(ss: seq<State>, ops: seq<Operation>, engine: RiskEngine, i: nat, j: nat)
    requires History(ss, ops, engine) && i <= j < |ss|
    ensures Inv(ss[j]) && Risen(ss[i], ss[j])
    decreases j, i
  {
    hide Inv, Apply, Allowed;
    if i < j {
      HistoryKeeps(ss, ops, engine, i, j - 1);
      ApplyInv(ss[j - 1], ops[j - 1], engine);
      ApplyRaises(ss[j - 1], ops[j - 1], engine);
    } else if j > 0 {
      HistoryKeeps(ss, ops, engine, j - 1, j);
    }
  }

  /** A new admission, not the resubmission of one still admitted. */
  predicate NewlyAdmits(s: State, op: Operation, engine: RiskEngine) {
    op.DoAdmit? && Admit(s, op.request, engine).1.Admission? && Admit(s, op.request, engine).1.record.id !in s.byAdmission
  }

  lemma {:induction false} NewAdmission(s: State, q: Request, engine: RiskEngine)
    requires Inv(s) && NewlyAdmits(s, DoAdmit(q), engine)
    ensures var r := Admit(s, q, engine).1.record;
            && r.decisionId == q.context.decision.decisionId && r.generation > Latest(s.generations, r.decisionId)
            && Latest(Admit(s, q, engine).0.generations, r.decisionId) == r.generation
  {
    var d := q.context.decision.decisionId;
    assert d in s.byDecision.values ==> Current(s, d);
    NextIsNewest(s, d);
    hide Inv, Overlay, NextGeneration, Current;
  }

  /** Over any history, restorations included, the generations of one decision strictly increase. */
  lemma {:induction false} GenerationsIncrease(ss: seq<State>, ops: seq<Operation>, engine: RiskEngine, i: nat, j: nat)
    requires History(ss, ops, engine) && i < j < |ops|
    requires NewlyAdmits(ss[i], ops[i], engine) && NewlyAdmits(ss[j], ops[j], engine)
    requires ops[i].request.context.decision.decisionId == ops[j].request.context.decision.decisionId
    ensures Admit(ss[i], ops[i].request, engine).1.record.generation < Admit(ss[j], ops[j].request, engine).1.record.generation
  {
    HistoryKeeps(ss, ops, engine, i, i);
    HistoryKeeps(ss, ops, engine, i + 1, j);
    NewAdmission(ss[i], ops[i].request, engine);
    NewAdmission(ss[j], ops[j].request, engine);
    hide Inv, Admit, NewlyAdmits;
  }

  lemma {:induction false} MarkerLasts(ss: seq<State>, ops: seq<Operation>, engine: RiskEngine, i: nat, j: nat, id: AdmissionId, intentId: string)
    requires History(ss, ops, engine) && i <= j < |ss| && (forall k :: i <= k < j ==> !Restoring(ops[k]))
    requires ConsumedBy(ss[i], id, intentId)
    ensures ConsumedBy(ss[j], id, intentId)
  {
    if i < j {
      MarkerLasts(ss, ops, engine, i, j - 1, id, intentId);
      HistoryKeeps(ss, ops, engine, i, j - 1);
      hide Inv, Apply, Allowed, Risen;
      MarkersStay(ss[j - 1], ops[j - 1], engine, id, intentId);
    }
  }

  /** Between restorations an admission is consumed by at most one intent, and consumed only once. */
  lemma {:induction false} ConsumedAtMostOnce(ss: seq<State>, ops: seq<Operation>, engine: RiskEngine, i: nat, j: nat)
    requires History(ss, ops, engine) && i < j < |ops| && (forall k :: i < k < j ==> !Restoring(ops[k]))
    requires ops[i].DoConsume? && ops[j].DoConsume? && ops[i].id == ops[j].id
    requires Consume(ss[i], ops[i].id, ops[i].intentId).1 == CONSUMED
    ensures Consume(ss[j], ops[j].id, ops[j].intentId).1 != CONSUMED
    ensures Consume(ss[j], ops[j].id, ops[j].intentId).1 == ALREADY_CONSUMED_SAME_INTENT ==> ops[j].intentId == ops[i].intentId
  {
    assert ConsumedBy(ss[i + 1], ops[i].id, ops[i].intentId);
    MarkerLasts(ss, ops, engine, i + 1, j, ops[i].id, ops[i].intentId);
    hide Inv, Allowed, Apply;
  }
}
