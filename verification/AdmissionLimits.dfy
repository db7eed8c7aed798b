/** Where the coordinator promises less than its comments suggest. */
module AdmissionLimits {
  import opened Common
  import opened Admission
  import opened AdmissionTheorems
  import opened AdmissionCaps
  import Exposure

  /** An unknown base is overlaid as if it were known and empty, so the reason against it disappears. */
  lemma {:induction false} UnknownBaseBecomesKnown(s: Snapshot, rs: seq<Record>, c: Exposure.Candidate, policy: Policy, requested: Option<real>)
    requires s.pending.UNKNOWN?
    ensures Exposure.PENDING_EXPOSURE_UNKNOWN in Exposure.Reasons(Some(s), c, policy, requested)
    ensures var overlaid := s.(pending := BuildPending(s.pending, rs));
            && Exposure.PENDING_EXPOSURE_UNKNOWN !in Exposure.Reasons(Some(overlaid), c, policy, requested)
            && overlaid.pending.global == Sum(rs, Everything()) && overlaid.pending.count == |rs|
  {
    hide BuildPending, Sum, Exposure.Reasons, Exposure.Coherent, Newest, Held;
    OverlayConserves(s.pending, rs);
    Exposure.ReasonsAreExact(s, c, policy, requested);
    Exposure.ReasonsAreExact(s.(pending := BuildPending(s.pending, rs)), c, policy, requested);
  }

  /** The reservations of a snapshot are refused for repeating an instance exactly when they do. */
  lemma {:induction false} RepetitionIsRefused(rs: seq<Reservation>, c: Exposure.Candidate)
    ensures Exposure.EXPOSURE_STATE_UNAVAILABLE in Exposure.ReservationReasons(rs, c) <==> !UniqueInstances(rs)
  {
    if rs != [] {
      var front, last := rs[..|rs| - 1], rs[|rs| - 1];
      RepetitionIsRefused(front, c);
      hide UniqueInstances;
      OneMoreInstance(rs);
    }
  }

  lemma {:induction false} OneMoreInstance(rs: seq<Reservation>)
    requires rs != []
    ensures var front, last := rs[..|rs| - 1], rs[|rs| - 1];
            UniqueInstances(rs) <==> UniqueInstances(front) && forall earlier <- front :: earlier.instanceId != last.instanceId
  {
    var front, last := rs[..|rs| - 1], rs[|rs| - 1];
    if UniqueInstances(rs) {
      forall earlier <- front ensures earlier.instanceId != last.instanceId {
        var i :| 0 <= i < |front| && front[i] == earlier;
        assert rs[i].instanceId != rs[|rs| - 1].instanceId;
      }
    }
    if UniqueInstances(front) && forall earlier <- front :: earlier.instanceId != last.instanceId {
      forall i, j | 0 <= i < j < |rs| ensures rs[i].instanceId != rs[j].instanceId {
        assert rs[i] == front[i] && front[i] in front;
      }
    }
  }

  /** Repeated instances in the base, whatever it is and whatever has been admitted since: the base would be refused for them
      exactly if there are any, the overlay never is, and the base passes through unchanged exactly if there are none. */
  lemma {:induction false} DuplicateInstancesCollapse(base: Pending, rs: seq<Record>, c: Exposure.Candidate)
    requires base.KNOWN?
    ensures Exposure.EXPOSURE_STATE_UNAVAILABLE in Exposure.ReservationReasons(base.reservations, c) <==> !UniqueInstances(base.reservations)
    ensures Exposure.EXPOSURE_STATE_UNAVAILABLE !in Exposure.ReservationReasons(BuildPending(base, rs).reservations, c)
    ensures BuildPending(base, []).reservations == base.reservations <==> UniqueInstances(base.reservations)
  {
    RepetitionIsRefused(base.reservations, c);
    OverlayIsUnique(base, rs);
    OverlayIsUnique(base, []);
    RepetitionIsRefused(BuildPending(base, rs).reservations, c);
    if UniqueInstances(base.reservations) {
      UniqueStay(base.reservations);
    }
    hide UniqueInstances;
  }

  // ----------------------------------------------- markers that outlive recovery

  predicate Marked(s: State, id: AdmissionId) {
    id in s.byAdmission && s.byAdmission[id].consumedBy.Some?
  }

  lemma {:induction false} RestoredHaveNoMarker(rs: seq<Record>, ids: map<AdmissionId, Entry>, id: AdmissionId)
    ensures var restored := RestoredIds(rs, ids);
            (id in restored && restored[id].consumedBy.Some?) <==>
            (id in ids && ids[id].consumedBy.Some? && forall r <- rs :: r.id != id)
  {
    if rs != [] {
      var front, last := rs[..|rs| - 1], rs[|rs| - 1];
      RestoredHaveNoMarker(front, ids, id);
      assert rs == front + [last];
    }
  }

  /** A consumption marker survives a fault recovery exactly if its entry is not the current one of its decision and no row
      read back has its id. */
  lemma {:induction false} MarkerSurvivesExactly(s: State, b: Batch, id: AdmissionId)
    requires RestoreAuthoritative(s, b).Some?
    ensures Marked(RestoreAuthoritative(s, b).value, id) <==>
            Marked(s, id) && id !in CurrentIds(s.byDecision) && forall r <- b.records :: r.id != id
  {
    RestoredHaveNoMarker(b.records, s.byAdmission - CurrentIds(s.byDecision), id);
    hide RestoredIds, CurrentIds, RestoredEntries, RestoredSequences, RestoredGenerations, BatchValid;
  }

  /** And markers do get into that position: whatever the engine and the request, if it opens a position, is consumed and
      released, and the same decision opens again, then no recovery removes the marker unless a row claims its id. */
  lemma {:induction false} MarkersOutliveRecovery(engine: RiskEngine, q: Request, intentId: string) returns (s: State, id: AdmissionId)
    requires engine(q.policy, Overlay([], q.context)).OPEN_ACCEPTED? && q.context.decision.target != FLAT && q.context.decision.sequence >= 0
    ensures var s1 := Admit(NOTHING, q, engine).0;
            && id in s1.byAdmission && Admit(NOTHING, q, engine).1 == Admission(s1.byAdmission[id].record, engine(q.policy, Overlay([], q.context)))
            && Consume(s1, id, intentId).1 == CONSUMED
            && s == Admit(Release(Consume(s1, id, intentId).0, id).0, q, engine).0
    ensures Marked(s, id)
    ensures forall b :: RestoreAuthoritative(s, b).Some? && (forall r <- b.records :: r.id != id) ==>
              Marked(RestoreAuthoritative(s, b).value, id)
  {
    var verdict := engine(q.policy, Overlay([], q.context));
    var s1, r := FirstGrant(engine, q);
    id := r.id;
    var s3 := ConsumedAndReleased(s1, r, verdict, intentId);
    s := AdmittedAgain(s3, engine, q, r, intentId);
    forall b | RestoreAuthoritative(s, b).Some? && (forall r <- b.records :: r.id != id)
      ensures Marked(RestoreAuthoritative(s, b).value, id) {
      MarkerSurvivesExactly(s, b, id);
    }
  }

  lemma {:induction false} FirstGrant(engine: RiskEngine, q: Request) returns (s: State, r: Record)
    requires engine(q.policy, Overlay([], q.context)).OPEN_ACCEPTED? && q.context.decision.target != FLAT && q.context.decision.sequence >= 0
    ensures var verdict := engine(q.policy, Overlay([], q.context));
            Admit(NOTHING, q, engine) == (s, Admission(r, verdict)) && s == Grant(NOTHING, Entry(r, Some(verdict), None))
    ensures r == NewRecord(NOTHING, q, Overlay([], q.context), r.notional, r.margin) && r.generation == 1
  {
    hide Overlay;
    assert Admitted(NOTHING.byDecision) == [];
    var verdict := engine(q.policy, Overlay([], q.context));
    r := NewRecord(NOTHING, q, Overlay([], q.context), verdict.notional, verdict.margin);
    s := Admit(NOTHING, q, engine).0;
  }

  /** The first generation was consumed and released; nothing else ever happened. */
  predicate Settled(s: State, r: Record, e: Entry) {
    && e.record == r.(status := RELEASED) && s.known && !s.faulted
    && s.byDecision == Entries([r.decisionId], map[r.decisionId := e]) && s.byAdmission == map[r.id := e]
    && s.generations == map[r.decisionId := r.generation] && s.sequences == map[r.instanceId := r.sequence]
  }

  lemma {:induction false} ConsumedAndReleased(s1: State, r: Record, verdict: Verdict, intentId: string) returns (s3: State)
    requires s1 == Grant(NOTHING, Entry(r, Some(verdict), None)) && r.status == ADMITTED
    ensures Consume(s1, r.id, intentId).1 == CONSUMED && s3 == Release(Consume(s1, r.id, intentId).0, r.id).0
    ensures Settled(s3, r, Entry(r.(status := RELEASED), Some(verdict), Some(intentId)))
  {
    s3 := Release(Consume(s1, r.id, intentId).0, r.id).0;
  }

  lemma {:induction false} NothingAdmitted(e: Entries, d: string)
    requires e.keys == [d] && d in e.values && e.values[d].record.status == RELEASED
    ensures Admitted(e) == []
  {
    assert e.keys[..0] == [];
    assert AdmittedOf(e.keys[..0], e.values) == [];
  }

  lemma {:induction false} AdmittedAgain(s3: State, engine: RiskEngine, q: Request, r: Record, intentId: string) returns (s4: State)
    requires engine(q.policy, Overlay([], q.context)).OPEN_ACCEPTED? && q.context.decision.target != FLAT
    requires r == NewRecord(NOTHING, q, Overlay([], q.context), r.notional, r.margin)
    requires Settled(s3, r, Entry(r.(status := RELEASED), Some(engine(q.policy, Overlay([], q.context))), Some(intentId)))
    ensures s4 == Admit(s3, q, engine).0 && Marked(s4, r.id) && r.id !in CurrentIds(s4.byDecision)
  {
    var d := q.context.decision.decisionId;
    var verdict := engine(q.policy, Overlay([], q.context));
    NothingAdmitted(s3.byDecision, d);
    hide Overlay, Admitted;
    var again := NewRecord(s3, q, Overlay([], q.context), verdict.notional, verdict.margin);
    s4 := Admit(s3, q, engine).0;
    assert s4 == Grant(s3, Entry(again, Some(verdict), None));
    assert again.id.generation == 2 && r.id.generation == 1;
    forall key | key in s4.byDecision.values ensures s4.byDecision.values[key].record == again {
    }
  }

  /** Such engines exist among those that respect the caps. */
  const ROOMY: Policy := Exposure.Policy(10.0, 10.0, 10.0, 10.0, 10.0, 10, 10, None)
  const EMPTY_BASE: Snapshot := Exposure.Snapshot(0.0, map[], map[], 0, Exposure.KNOWN(0.0, map[], map[], 0.0, 0.0, 0, []))
  const REQUEST: Request :=
    Request(ROOMY, Context(StrategyDecision("d", "i", "s", "1", "h", "B-BTC_USDT", 1, LONG), Some(EMPTY_BASE), 0))

  function Cautious(): RiskEngine {
    (policy: Policy, c: Context) =>
      if Exposure.Reasons(c.exposure, CandidateOf(c.decision), policy, Some(1.0)) == [] then OPEN_ACCEPTED(1.0, 1.0) else REJECTED
  }

  /** So a marker outlives recoveries although no cap is ever exceeded. */
  lemma {:induction false} MarkerOutlivesUnderCaps(intentId: string) returns (s: State, id: AdmissionId)
    ensures RespectsCaps(Cautious()) && Marked(s, id)
    ensures s == Admit(Release(Consume(Admit(NOTHING, REQUEST, Cautious()).0, id, intentId).0, id).0, REQUEST, Cautious()).0
    ensures forall b :: RestoreAuthoritative(s, b).Some? && (forall r <- b.records :: r.id != id) ==>
              Marked(RestoreAuthoritative(s, b).value, id)
  {
    hide Cautious, RespectsCaps, Admit, Release, Consume, RestoreAuthoritative, Overlay;
    CautiousOpens();
    s, id := MarkersOutliveRecovery(Cautious(), REQUEST, intentId);
  }

  lemma {:induction false} CautiousOpens()
    ensures RespectsCaps(Cautious()) && Cautious()(ROOMY, Overlay([], REQUEST.context)).OPEN_ACCEPTED?
  {
    var snapshot := Overlay([], REQUEST.context).exposure.value;
    assert snapshot == EMPTY_BASE;
    Exposure.SilentMeansFits(snapshot, CandidateOf(REQUEST.context.decision), ROOMY, 1.0);
    assert Exposure.ReservationReasons([], CandidateOf(REQUEST.context.decision)) == [];
    hide Exposure.Reasons;
  }
}
