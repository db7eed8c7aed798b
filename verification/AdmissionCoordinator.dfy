/** The coordinator in the form of its source: an object whose maps are updated in place, one
    serialized operation at a time. Each method is proved to do what its function says and to
    keep the invariant of the indexes. */
module AdmissionCoordinator {
  import opened Common
  import opened Admission
  import AdmissionTheorems
  import AdmissionHistories

  class RiskAdmissionCoordinator {
    var known: bool
    var byDecision: Entries
    var byAdmission: map<AdmissionId, Entry>
    var sequences: map<string, int>
    var generations: map<string, int>
    var faulted: bool
    const engine: RiskEngine

    ghost function View(): State
      reads this
    {
      State(known, byDecision, byAdmission, sequences, generations, faulted)
    }

    ghost predicate Valid()
      reads this
    {
      AdmissionTheorems.Inv(View())
    }

    constructor (engine: RiskEngine)
      ensures Valid() && View() == NOTHING && this.engine == engine
    {
      this.engine := engine;
      known, byDecision, byAdmission, sequences, generations, faulted := false, Entries([], map[]), map[], map[], map[], false;
      new;
      AdmissionTheorems.NothingInv();
    }

    /** Puts an entry into both indexes. */
    method File(e: Entry)
      modifies this`known, this`byDecision, this`byAdmission
      ensures View() == Filed(old(View()), e)
    {
      known := true;
      byDecision := byDecision.Set(e.record.decisionId, e);
      byAdmission := byAdmission[e.record.id := e];
    }

    method AdmitLocked(q: Request) returns (outcome: Outcome)
      requires Valid()
      modifies this
      ensures Valid() && (View(), outcome) == Admit(old(View()), q, engine)
    {
      hide AdmissionTheorems.Inv, NextGeneration;
      AdmissionTheorems.AdmitInv(View(), q, engine);
      if faulted {
        return Thrown;
      }
      var d := q.context.decision;
      if d.decisionId in byDecision.values && byDecision.values[d.decisionId].record.status == ADMITTED {
        outcome := Resubmit(q, byDecision.values[d.decisionId]);
        return;
      }
      if d.sequence < Latest(sequences, d.instanceId) {
        return Stale(Latest(sequences, d.instanceId));
      }
      var overlaid := Overlay(Admitted(byDecision), q.context);
      var verdict := engine(q.policy, overlaid);
      if verdict.REJECTED? {
        return Refused;
      }
      if verdict.CLOSE_ACCEPTED? {
        return NoCapacityOwned;
      }
      if verdict.OTHER_ACCEPTED? || d.target == FLAT {
        return Thrown;
      }
      var record := NewRecord(State(known, byDecision, byAdmission, sequences, generations, faulted), q, overlaid, verdict.notional, verdict.margin);
      File(Entry(record, Some(verdict), None));
      sequences := sequences[d.instanceId := d.sequence];
      generations := generations[d.decisionId := record.generation];
      outcome := Admission(record, verdict);
    }

    /** A decision that is still admitted comes again. */
    method Resubmit(q: Request, existing: Entry) returns (outcome: Outcome)
      modifies this`known, this`byDecision, this`byAdmission
      ensures (View(), outcome) == Resubmitted(old(View()), q, engine, existing)
    {
      if existing.decision.Some? {
        return Admission(existing.record, existing.decision.value);
      }
      var overlaid := Overlay(AdmittedOf(Without(byDecision.keys, q.context.decision.decisionId), byDecision.values), q.context);
      var verdict := engine(q.policy, overlaid);
      if !verdict.OPEN_ACCEPTED? || RiskDecisionId(q.policy, overlaid, verdict.notional, verdict.margin) != existing.record.riskDecisionId {
        return Thrown;
      }
      File(existing.(decision := Some(verdict)));
      outcome := Admission(existing.record, verdict);
    }

    method ReleaseLocked(id: AdmissionId) returns (outcome: ReleaseOutcome)
      requires Valid()
      modifies this`byDecision, this`byAdmission
      ensures Valid() && (View(), outcome) == Release(old(View()), id)
    {
      hide AdmissionTheorems.Inv;
      AdmissionTheorems.ReleaseInv(View(), id);
      if faulted {
        return ReleaseThrown;
      }
      if id !in byAdmission {
        return UNKNOWN_ADMISSION;
      }
      var e := byAdmission[id];
      if e.record.status == RELEASED {
        return ALREADY_RELEASED(e.record);
      }
      var released := e.(record := e.record.(status := RELEASED));
      byAdmission := byAdmission[id := released];
      if known {
        byDecision := byDecision.Set(e.record.decisionId, released);
      }
      outcome := Released(released.record);
    }

    method ConsumeForLiveLocked(id: AdmissionId, intentId: string) returns (outcome: ConsumeOutcome)
      requires Valid()
      modifies this`byDecision, this`byAdmission
      ensures Valid() && (View(), outcome) == Consume(old(View()), id, intentId)
    {
      hide AdmissionTheorems.Inv;
      AdmissionTheorems.ConsumeInv(View(), id, intentId);
      if faulted || id !in byAdmission || byAdmission[id].record.status != ADMITTED {
        return UNAVAILABLE;
      }
      var e := byAdmission[id];
      if e.consumedBy == Some(intentId) {
        return ALREADY_CONSUMED_SAME_INTENT;
      }
      if e.consumedBy.Some? {
        return UNAVAILABLE;
      }
      var consumed := e.(consumedBy := Some(intentId));
      byAdmission := byAdmission[id := consumed];
      if known {
        byDecision := byDecision.Set(e.record.decisionId, consumed);
      }
      outcome := CONSUMED;
    }

    /** Installs a validated batch in one step. */
    method Replace(b: Batch, ids: map<AdmissionId, Entry>)
      modifies this`known, this`byDecision, this`byAdmission, this`sequences, this`generations
      ensures View() == Replaced(old(View()), b, ids)
    {
      known := true;
      byDecision := RestoredEntries(b.records);
      byAdmission := RestoredIds(b.records, ids);
      sequences := RestoredSequences(b.sequences);
      generations := RestoredGenerations(b.records, b.generations);
    }

    method RestoreLocked(b: Batch) returns (ok: bool)
      requires Valid() && AdmissionHistories.Complete(View(), b)
      modifies this`known, this`byDecision, this`byAdmission, this`sequences, this`generations
      ensures Valid() && ok == Restore(old(View()), b).Some?
      ensures View() == if ok then Restore(old(View()), b).value else old(View())
    {
      hide AdmissionTheorems.Inv;
      AdmissionHistories.RestoreInv(View(), b);
      ok := !faulted && !known && BatchValid(b);
      if ok {
        Replace(b, byAdmission);
      }
    }

    method RestoreAuthoritativeLocked(b: Batch) returns (ok: bool)
      requires Valid() && AdmissionHistories.Complete(View(), b)
      modifies this
      ensures Valid() && ok == RestoreAuthoritative(old(View()), b).Some?
      ensures View() == if ok then RestoreAuthoritative(old(View()), b).value else old(View())
      ensures ok ==> !faulted
    {
      hide AdmissionTheorems.Inv;
      AdmissionHistories.RecoverInv(View(), b);
      ok := BatchValid(b);
      if ok {
        var previous := set key <- byDecision.values :: byDecision.values[key].record.id;
        Replace(b, byAdmission - previous);
        faulted := false;
      }
    }

    method MarkAccountFaulted()
      requires Valid()
      modifies this`faulted
      ensures Valid() && View() == old(View()).(faulted := true)
    {
      hide AdmissionTheorems.Inv;
      AdmissionHistories.Unfaulted(View());
      faulted := true;
    }
  }
}
