/** What every history of admissions, releases, consumptions and restorations keeps. */
module AdmissionTheorems {
  import opened Common
  import opened Admission
  import Exposure

  // ------------------------------------------------------------ weighted sums

  type Weight = Record -> real

  function Sum(rs: seq<Record>, w: Weight): real {
    if rs == [] then 0.0 else Sum(rs[..|rs| - 1], w) + w(rs[|rs| - 1])
  }

  function Everything(): Weight {
    (r: Record) => r.notional
  }

  function OfPair(pair: string): Weight {
    (r: Record) => if r.pair == pair then r.notional else 0.0
  }

  function OfStrategy(strategyId: string): Weight {
    (r: Record) => if r.strategyId == strategyId then r.notional else 0.0
  }

  function OfInstance(instanceId: string): Weight {
    (r: Record) => if r.instanceId == instanceId then r.notional else 0.0
  }

  lemma {:induction false} SumAppends(a: seq<Record>, b: seq<Record>, w: Weight)
    ensures Sum(a + b, w) == Sum(a, w) + Sum(b, w)
  {
    if b == [] {
      assert a + b == a;
    } else {
      SumAppends(a, b[..|b| - 1], w);
      assert (a + b)[..|a + b| - 1] == a + b[..|b| - 1];
    }
  }

  function OfSide(long: bool): Weight {
    (r: Record) => if (r.direction == LONG) == long then r.notional else 0.0
  }

  predicate NothingNegative(rs: seq<Record>) {
    forall r <- rs :: r.notional >= 0.0
  }

  // --------------------------------------------------- the overlay conserves

  function Reserved(rs: seq<Reservation>, instanceId: string): real {
    var i := Find(rs, instanceId);
    if i < |rs| then rs[i].notional else 0.0
  }

  /** What the base already records; an unknown one records nothing. */
  function Recorded(base: Pending): (p: Pending)
    ensures p.KNOWN?
  {
    if base.KNOWN? then base else Exposure.KNOWN(0.0, map[], map[], 0.0, 0.0, 0, [])
  }

  function Held(m: map<string, real>, key: string): real {
    if key in m then m[key] else 0.0
  }

  /** The newest reservation of an instance. */
  function Newest(rs: seq<Reservation>, instanceId: string): real {
    if rs == [] then 0.0
    else if rs[|rs| - 1].instanceId == instanceId then rs[|rs| - 1].notional
    else Newest(rs[..|rs| - 1], instanceId)
  }

  /** The overlay conserves: in total, on either side, per pair, per strategy and per instance it is what the base records
      and what was granted, no more and no less. */
  lemma {:induction false} OverlayConserves(base: Pending, rs: seq<Record>)
    ensures var p, b := BuildPending(base, rs), Recorded(base);
            && p.global == b.global + Sum(rs, Everything())
            && p.long == b.long + Sum(rs, OfSide(true)) && p.short == b.short + Sum(rs, OfSide(false))
            && p.count == b.count + |rs|
            && (forall key :: Held(p.perPair, key) == Held(b.perPair, key) + Sum(rs, OfPair(key)))
            && (forall key :: Held(p.perStrategy, key) == Held(b.perStrategy, key) + Sum(rs, OfStrategy(key)))
            && (forall key :: Newest(p.reservations, key) == Newest(b.reservations, key) + Sum(rs, OfInstance(key)))
  {
    OverlayGrows(base, rs);
    var p, seed, b := BuildPending(base, rs), Seed(base), Recorded(base);
    hide BuildPending, Sum, Newest, Reserved, UniqueInstances;
    assert forall m, key :: Held(m, key) == Exposure.At(m, key);
    OverlayIsUnique(base, rs);
    forall key ensures Newest(p.reservations, key) == Newest(b.reservations, key) + Sum(rs, OfInstance(key)) {
      NewestIsOnly(p.reservations, key);
      SeedKeepsNewest(base, key);
    }
  }

  lemma {:induction false} NewestIsOnly(rs: seq<Reservation>, key: string)
    requires UniqueInstances(rs)
    ensures Newest(rs, key) == Reserved(rs, key)
  {
    if rs != [] {
      var front, last := rs[..|rs| - 1], rs[|rs| - 1];
      NewestIsOnly(front, key);
      var j := Find(front, key);
      if last.instanceId == key {
        FindIs(rs, key, |rs| - 1, |rs|);
      } else {
        FindIs(rs, key, j, |front|);
      }
    }
  }

  lemma {:induction false} SeedKeepsNewest(base: Pending, key: string)
    ensures Reserved(Seed(base).reservations, key) == Newest(Recorded(base).reservations, key)
  {
    if base.KNOWN? {
      DeduplicatingKeepsNewest(base.reservations, key);
    }
  }

  lemma {:induction false} DeduplicatingKeepsNewest(rs: seq<Reservation>, key: string)
    ensures Reserved(Deduplicated(rs), key) == Newest(rs, key)
  {
    if rs != [] {
      DeduplicatingKeepsNewest(rs[..|rs| - 1], key);
      UpsertFinds(Deduplicated(rs[..|rs| - 1]), rs[|rs| - 1], key);
    }
  }

  lemma {:induction false} UpsertKeepsUnique(rs: seq<Reservation>, r: Reservation)
    requires UniqueInstances(rs)
    ensures UniqueInstances(Upsert(rs, r))
  {
  }

  lemma {:induction false} DeduplicatedIsUnique(rs: seq<Reservation>)
    ensures UniqueInstances(Deduplicated(rs))
  {
    if rs != [] {
      DeduplicatedIsUnique(rs[..|rs| - 1]);
      UpsertKeepsUnique(Deduplicated(rs[..|rs| - 1]), rs[|rs| - 1]);
      hide Upsert, UniqueInstances;
    }
  }

  /** Whatever the base repeats, the overlay has one reservation per instance. */
  lemma {:induction false} OverlayIsUnique(base: Pending, rs: seq<Record>)
    ensures UniqueInstances(BuildPending(base, rs).reservations)
  {
    if rs == [] {
      if base.KNOWN? {
        DeduplicatedIsUnique(base.reservations);
      }
    } else {
      OverlayIsUnique(base, rs[..|rs| - 1]);
      LastGrant(base, rs);
      hide BuildPending, UniqueInstances;
      GrantKeepsUnique(BuildPending(base, rs[..|rs| - 1]), rs[|rs| - 1]);
    }
  }

  lemma {:induction false} GrantKeepsUnique(p: Pending, r: Record)
    requires p.KNOWN? && UniqueInstances(p.reservations)
    ensures UniqueInstances(Granted(p, r).reservations)
  {
    var i := Find(p.reservations, r.instanceId);
    var renewed := Exposure.Reservation(r.instanceId, r.strategyId, r.strategyVersion, r.parameterHash,
                                       (if i < |p.reservations| then p.reservations[i].notional else 0.0) + r.notional,
                                       (if i < |p.reservations| then p.reservations[i].count else 0) + 1);
    UpsertKeepsUnique(p.reservations, renewed);
    hide Upsert, UniqueInstances;
  }

  /** Every view of the overlay grows by the same grants. */
  ghost predicate Grown(p: Pending, seed: Pending, rs: seq<Record>)
    requires p.KNOWN? && seed.KNOWN?
  {
    && p.global == seed.global + Sum(rs, Everything())
    && p.long == seed.long + Sum(rs, OfSide(true)) && p.short == seed.short + Sum(rs, OfSide(false))
    && p.count == seed.count + |rs|
    && (forall key :: Exposure.At(p.perPair, key) == Exposure.At(seed.perPair, key) + Sum(rs, OfPair(key)))
    && (forall key :: Exposure.At(p.perStrategy, key) == Exposure.At(seed.perStrategy, key) + Sum(rs, OfStrategy(key)))
    && (forall key :: Reserved(p.reservations, key) == Reserved(seed.reservations, key) + Sum(rs, OfInstance(key)))
  }

  lemma {:induction false} OverlayGrows(base: Pending, rs: seq<Record>)
    ensures Grown(BuildPending(base, rs), Seed(base), rs)
  {
    if rs != [] {
      var front, last := rs[..|rs| - 1], rs[|rs| - 1];
      OverlayGrows(base, front);
      LastGrant(base, rs);
      GrantGrows(BuildPending(base, front), last);
      hide BuildPending, Granted, Grown, GrownBy;
      GrowthComposes(BuildPending(base, front), BuildPending(base, rs), Seed(base), rs);
    }
  }

  /** What one grant adds to each view. */
  ghost predicate GrownBy(p: Pending, p': Pending, r: Record)
    requires p.KNOWN? && p'.KNOWN?
  {
    && p'.global == p.global + r.notional && p'.count == p.count + 1
    && p'.long == p.long + OfSide(true)(r) && p'.short == p.short + OfSide(false)(r)
    && (forall key :: Exposure.At(p'.perPair, key) == Exposure.At(p.perPair, key) + OfPair(key)(r))
    && (forall key :: Exposure.At(p'.perStrategy, key) == Exposure.At(p.perStrategy, key) + OfStrategy(key)(r))
    && (forall key :: Reserved(p'.reservations, key) == Reserved(p.reservations, key) + OfInstance(key)(r))
  }

  lemma {:induction false} GrowthComposes(p: Pending, p': Pending, seed: Pending, rs: seq<Record>)
    requires p.KNOWN? && p'.KNOWN? && seed.KNOWN?
    requires rs != [] && Grown(p, seed, rs[..|rs| - 1]) && GrownBy(p, p', rs[|rs| - 1])
    ensures Grown(p', seed, rs)
  {
    hide Reserved, Exposure.At, Sum;
    forall w: Weight ensures Sum(rs, w) == Sum(rs[..|rs| - 1], w) + w(rs[|rs| - 1]) {
      LastSummand(rs, w);
    }
  }

  lemma {:induction false} LastSummand(rs: seq<Record>, w: Weight)
    requires rs != []
    ensures Sum(rs, w) == Sum(rs[..|rs| - 1], w) + w(rs[|rs| - 1])
  {
  }

  lemma {:induction false} LastGrant(base: Pending, rs: seq<Record>)
    requires rs != []
    ensures BuildPending(base, rs) == Granted(BuildPending(base, rs[..|rs| - 1]), rs[|rs| - 1])
  {
  }

  lemma {:induction false} GrantGrows(p: Pending, r: Record)
    requires p.KNOWN?
    ensures GrownBy(p, Granted(p, r), r)
  {
    forall key ensures Reserved(Reserve(p.reservations, r), key) == Reserved(p.reservations, key) + OfInstance(key)(r) {
      ReservingAdds(p.reservations, r, key);
    }
    hide Reserve, Reserved;
  }

  lemma {:induction false} ReservingAdds(rs: seq<Reservation>, r: Record, key: string)
    ensures Reserved(Reserve(rs, r), key) == Reserved(rs, key) + OfInstance(key)(r)
  {
    var i := Find(rs, r.instanceId);
    var renewed := Exposure.Reservation(r.instanceId, r.strategyId, r.strategyVersion, r.parameterHash,
                                       (if i < |rs| then rs[i].notional else 0.0) + r.notional,
                                       (if i < |rs| then rs[i].count else 0) + 1);
    UpsertFinds(rs, renewed, key);
  }

  lemma {:induction false} UpsertFinds(rs: seq<Reservation>, r: Reservation, key: string)
    ensures var rs' := Upsert(rs, r);
            Reserved(rs', key) == if key == r.instanceId then r.notional else Reserved(rs, key)
  {
    var rs' := Upsert(rs, r);
    var i := Find(rs, r.instanceId);
    var j, k := Find(rs, key), Find(rs', key);
    if key == r.instanceId {
      FindIs(rs', key, i, |rs'|);
    } else {
      FindIs(rs', key, j, |rs|);
    }
  }

  /** `Find` is determined by what it promises. */
  lemma {:induction false} FindIs(rs: seq<Reservation>, key: string, j: nat, n: nat)
    requires n <= |rs| <= n + 1 && j <= n && (|rs| > n ==> rs[n].instanceId != key)
    requires forall l :: 0 <= l < j ==> rs[l].instanceId != key
    requires j < n ==> rs[j].instanceId == key
    ensures Find(rs, key) == if j < n then j else |rs|
  {
  }

  predicate UniqueInstances(rs: seq<Reservation>) {
    forall i, j :: 0 <= i < j < |rs| ==> rs[i].instanceId != rs[j].instanceId
  }

  lemma {:induction false} UniqueStay(rs: seq<Reservation>)
    requires UniqueInstances(rs)
    ensures Deduplicated(rs) == rs
  {
    if rs != [] {
      UniqueStay(rs[..|rs| - 1]);
      var front, last := rs[..|rs| - 1], rs[|rs| - 1];
      FindIs(front, last.instanceId, |front|, |front|);
      assert Find(front, last.instanceId) == |front|;
    }
  }

  /** A well-formed base gives a well-formed overlay: no child above its parent, unique instances, nothing negative. */
  lemma {:induction false} OverlayIsWellFormed(base: Pending, rs: seq<Record>)
    requires base.KNOWN? ==> Exposure.PendingValid(base) && UniqueInstances(base.reservations)
    requires NothingNegative(rs)
    ensures Exposure.PendingValid(BuildPending(base, rs)) && UniqueInstances(BuildPending(base, rs).reservations)
  {
    if rs == [] {
      if base.KNOWN? {
        UniqueStay(base.reservations);
      }
    } else {
      var front, last := rs[..|rs| - 1], rs[|rs| - 1];
      OverlayIsWellFormed(base, front);
      LastGrant(base, rs);
      assert last in rs;
      hide BuildPending, Exposure.PendingValid, UniqueInstances, Granted;
      GrantIsWellFormed(BuildPending(base, front), last);
    }
  }

  lemma {:induction false} GrantIsWellFormed(p: Pending, r: Record)
    requires p.KNOWN? && Exposure.PendingValid(p) && UniqueInstances(p.reservations) && r.notional >= 0.0
    ensures Exposure.PendingValid(Granted(p, r)) && UniqueInstances(Granted(p, r).reservations)
  {
    var rs' := Reserve(p.reservations, r);
    var i := Find(p.reservations, r.instanceId);
    forall x | x in rs' ensures x.notional >= 0.0 && x.count >= 0 && x.notional <= p.global + r.notional {
      var k :| 0 <= k < |rs'| && rs'[k] == x;
      assert k < |p.reservations| ==> p.reservations[k] in p.reservations;
    }
    hide Find;
  }

  // -------------------------------------------------------------- invariants

  ghost predicate Keyed(e: Entries) {
    && (forall i, j :: 0 <= i < j < |e.keys| ==> e.keys[i] != e.keys[j])
    && (forall key :: key in e.keys <==> key in e.values)
  }

  /** The id says whose record it is, and of which generation. */
  predicate Genuine(r: Record) {
    r.id.generation == r.generation && r.id.riskDecisionId.context.decision.decisionId == r.decisionId
  }

  /** What is current is filed in both indexes alike, and no generation exceeds its watermark. */
  ghost predicate Current(s: State, key: string)
    requires key in s.byDecision.values
  {
    var e := s.byDecision.values[key];
    e.record.decisionId == key && e.record.id in s.byAdmission && s.byAdmission[e.record.id] == e
  }

  ghost predicate Historic(s: State, id: AdmissionId)
    requires id in s.byAdmission
  {
    var r := s.byAdmission[id].record;
    && r.id == id && Genuine(r) && r.generation <= Latest(s.generations, r.decisionId)
    && (r.status == ADMITTED ==> r.decisionId in s.byDecision.values && s.byDecision.values[r.decisionId].record.id == id)
  }

  ghost predicate Inv(s: State) {
    && Keyed(s.byDecision)
    && (forall key <- s.byDecision.values :: Current(s, key))
    && (forall id <- s.byAdmission :: Historic(s, id))
    && (!s.known ==> s.byDecision.values == map[] && s.byAdmission == map[])
  }

  lemma {:induction false} OverlayKeepsDecision(rs: seq<Record>, c: Context)
    ensures Overlay(rs, c).decision == c.decision
  {
  }

  lemma {:induction false} FiledUnderBoth(s: State, key: string)
    requires Inv(s) && key in s.byDecision.values
    ensures Current(s, key) && Keyed(s.byDecision)
  {
  }

  lemma {:induction false} NothingInv()
    ensures Inv(NOTHING)
  {
  }

  /** At most one record per decision is admitted, and both indexes hold the same entry for it. */
  lemma {:induction false} OneAdmittedPerDecision(s: State, id: AdmissionId, other: AdmissionId)
    requires Inv(s) && id in s.byAdmission && other in s.byAdmission
    requires s.byAdmission[id].record.status == ADMITTED && s.byAdmission[other].record.status == ADMITTED
    requires s.byAdmission[id].record.decisionId == s.byAdmission[other].record.decisionId
    ensures id == other
    ensures var d := s.byAdmission[id].record.decisionId;
            d in s.byDecision.values && s.byDecision.values[d] == s.byAdmission[id]
  {
    assert Historic(s, id) && Historic(s, other);
    assert Current(s, s.byAdmission[id].record.decisionId);
  }

  lemma {:induction false} SettingKeepsKeys(e: Entries, key: string, entry: Entry)
    requires Keyed(e)
    ensures Keyed(e.Set(key, entry))
  {
  }

  lemma {:induction false} NextIsNewest(s: State, decisionId: string)
    requires Inv(s)
    ensures NextGeneration(s, decisionId) > Latest(s.generations, decisionId)
  {
  }

  /** A fresh admission gets a generation above every one its decision ever had, and hence an id never used before. */
  lemma {:induction false} FreshAdmission(s: State, q: Request, overlaid: Context, notional: real, margin: real)
    requires Inv(s) && overlaid.decision == q.context.decision
    ensures var r := NewRecord(s, q, overlaid, notional, margin);
            && r.id !in s.byAdmission && Genuine(r)
            && forall id <- s.byAdmission :: s.byAdmission[id].record.decisionId == r.decisionId ==>
                 s.byAdmission[id].record.generation < r.generation
  {
    var r := NewRecord(s, q, overlaid, notional, margin);
    NextIsNewest(s, q.context.decision.decisionId);
    forall id | id in s.byAdmission ensures Historic(s, id) {
    }
    hide Inv, NextGeneration;
  }

  /** Filing an entry under its decision and its id keeps the indexes in step, if no other admitted record of the
      decision is left behind. */
  lemma {:induction false} FilingKeepsIndexes(s: State, s': State, e: Entry)
    requires Inv(s) && Genuine(e.record) && e.record.generation <= Latest(s'.generations, e.record.decisionId)
    requires s'.byDecision.values == s.byDecision.values[e.record.decisionId := e] && s'.byAdmission == s.byAdmission[e.record.id := e]
    requires e.record.decisionId in s.byDecision.values ==>
               var before := s.byDecision.values[e.record.decisionId].record;
               before.id == e.record.id || before.status == RELEASED
    requires e.record.id in s.byAdmission ==> s.byAdmission[e.record.id].record.decisionId == e.record.decisionId
    requires forall key :: Latest(s.generations, key) <= Latest(s'.generations, key)
    ensures forall key <- s'.byDecision.values :: Current(s', key)
    ensures forall id <- s'.byAdmission :: Historic(s', id)
  {
    hide Keyed, Genuine, Latest;
    forall key | key in s'.byDecision.values ensures Current(s', key) {
      if key != e.record.decisionId {
        assert Current(s, key);
        assert Historic(s, s.byDecision.values[key].record.id);
      }
    }
    forall id | id in s'.byAdmission ensures Historic(s', id) {
      if id != e.record.id {
        assert Historic(s, id);
        var d := s.byAdmission[id].record.decisionId;
        assert d in s.byDecision.values ==> Current(s, d);
      }
    }
  }

  lemma {:induction false} GrantInv(s: State, e: Entry)
    requires Inv(s) && Genuine(e.record) && e.record.id !in s.byAdmission
    requires e.record.generation > Latest(s.generations, e.record.decisionId)
    requires e.record.decisionId in s.byDecision.values ==> s.byDecision.values[e.record.decisionId].record.status == RELEASED
    ensures Inv(Grant(s, e))
  {
    var s' := Grant(s, e);
    SettingKeepsKeys(s.byDecision, e.record.decisionId, e);
    hide Keyed, Current, Historic, Genuine;
    FilingKeepsIndexes(s, s', e);
  }

  /** Replacing the entry of an admitted record, in both indexes, by one with the same identity. */
  lemma {:induction false} RefileInv(s: State, e: Entry)
    requires Inv(s) && e.record.id in s.byAdmission && s.byAdmission[e.record.id].record.status == ADMITTED
    requires e.record == s.byAdmission[e.record.id].record.(status := e.record.status)
    ensures Inv(Filed(s, e))
    ensures Filed(s, e) == s.(byAdmission := s.byAdmission[e.record.id := e], byDecision := s.byDecision.Set(e.record.decisionId, e))
  {
    AdmittedIsCurrent(s, e.record.id);
    SettingKeepsKeys(s.byDecision, e.record.decisionId, e);
    assert Genuine(e.record);
    hide Keyed, Current, Historic, Genuine, Latest;
    FilingKeepsIndexes(s, Filed(s, e), e);
  }

  lemma {:induction false} AdmittedIsCurrent(s: State, id: AdmissionId)
    requires Inv(s) && id in s.byAdmission && s.byAdmission[id].record.status == ADMITTED
    ensures var r := s.byAdmission[id].record;
            && s.known && r.id == id && Genuine(r) && r.generation <= Latest(s.generations, r.decisionId)
            && r.decisionId in s.byDecision.values && s.byDecision.values[r.decisionId].record.id == id
  {
    assert Historic(s, id);
  }

  lemma {:induction false} AdmitInv(s: State, q: Request, engine: RiskEngine)
    requires Inv(s)
    ensures Inv(Admit(s, q, engine).0)
  {
    hide Inv, Overlay, Admitted, Resubmitted, Grant, NextGeneration, Historic;
    var d := q.context.decision;
    var resubmission := d.decisionId in s.byDecision.values;
    if resubmission {
      FiledUnderBoth(s, d.decisionId);
    }
    if !s.faulted && resubmission && s.byDecision.values[d.decisionId].record.status == ADMITTED {
      ResubmissionInv(s, q, engine, s.byDecision.values[d.decisionId]);
    } else if !s.faulted {
      var overlaid := Overlay(Admitted(s.byDecision), q.context);
      var verdict := engine(q.policy, overlaid);
      if verdict.OPEN_ACCEPTED? {
        OverlayKeepsDecision(Admitted(s.byDecision), q.context);
        FreshAdmission(s, q, overlaid, verdict.notional, verdict.margin);
        NextIsNewest(s, d.decisionId);
        GrantInv(s, Entry(NewRecord(s, q, overlaid, verdict.notional, verdict.margin), Some(verdict), None));
      }
    }
  }

  lemma {:induction false} ResubmissionInv(s: State, q: Request, engine: RiskEngine, existing: Entry)
    requires Inv(s) && existing.record.id in s.byAdmission && s.byAdmission[existing.record.id] == existing
    requires existing.record.status == ADMITTED
    ensures Inv(Resubmitted(s, q, engine, existing).0)
  {
    hide Inv, Filed, Overlay;
    forall decision ensures Inv(Filed(s, existing.(decision := decision))) {
      RefileInv(s, existing.(decision := decision));
    }
  }

  lemma {:induction false} ReleaseInv(s: State, id: AdmissionId)
    requires Inv(s)
    ensures Inv(Release(s, id).0)
  {
    if id in s.byAdmission && s.byAdmission[id].record.status == ADMITTED {
      assert Historic(s, id) && s.known;
      var e := s.byAdmission[id];
      hide Inv, Filed;
      RefileInv(s, e.(record := e.record.(status := RELEASED)));
    } else {
      hide Inv;
    }
  }

  lemma {:induction false} ConsumeInv(s: State, id: AdmissionId, intentId: string)
    requires Inv(s)
    ensures Inv(Consume(s, id, intentId).0)
  {
    if id in s.byAdmission && s.byAdmission[id].record.status == ADMITTED {
      assert Historic(s, id) && s.known;
      hide Inv, Filed;
      RefileInv(s, s.byAdmission[id].(consumedBy := Some(intentId)));
    } else {
      hide Inv;
    }
  }
}
