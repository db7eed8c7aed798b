/** Model of src/dispatch/admission.ts: the serialized owner of admitted risk capacity, for one
    account. (Admission ids contain the account, so the accounts of one coordinator never meet.)

    Ids that the source derives by hashing are injective tuples here. The risk engine is any
    function of policy and context; what is assumed of it is said where it is needed. */
module Admission {
  import opened Common
  import Exposure
  type Snapshot = Exposure.Snapshot
  type Pending = Exposure.Pending
  type Reservation = Exposure.Reservation
  type Policy = Exposure.Policy

  datatype Target = LONG | SHORT | FLAT

  datatype StrategyDecision = StrategyDecision(decisionId: string, instanceId: string, strategyId: string, strategyVersion: string,
                                               parameterHash: string, pair: string, sequence: int, target: Target)

  /** A request's context: the decision, the exposure evidence, and everything else the engine looks at. */
  datatype Context = Context(decision: StrategyDecision, exposure: Option<Snapshot>, otherEvidence: int)

  datatype Request = Request(policy: Policy, context: Context)

  datatype Verdict =
    | REJECTED
    | CLOSE_ACCEPTED
    | OPEN_ACCEPTED(notional: real, margin: real)
    | OTHER_ACCEPTED

  type RiskEngine = (Policy, Context) -> Verdict

  /** Identity of an accepted risk decision: all of its inputs and its approval. */
  datatype RiskDecisionId = RiskDecisionId(policy: Policy, context: Context, notional: real, margin: real)

  datatype AdmissionId = AdmissionId(riskDecisionId: RiskDecisionId, instanceId: string, pair: string, notional: real, margin: real,
                                     generation: int)

  datatype Status = ADMITTED | RELEASED

  datatype Record = Record(id: AdmissionId, generation: int, riskDecisionId: RiskDecisionId, decisionId: string, instanceId: string,
                           strategyId: string, strategyVersion: string, parameterHash: string, pair: string, sequence: int,
                           direction: Target, notional: real, margin: real, status: Status)

  /** `decision` is unknown for a restored entry that has not been evaluated again. */
  datatype Entry = Entry(record: Record, decision: Option<Verdict>, consumedBy: Option<string>)

  /** A JavaScript `Map`: keys in the order of their first insertion. */
  datatype Entries = Entries(keys: seq<string>, values: map<string, Entry>)
  {
    function Set(key: string, e: Entry): Entries {
      Entries(if key in values then keys else keys + [key], values[key := e])
    }
  }

  datatype State = State(known: bool, byDecision: Entries, byAdmission: map<AdmissionId, Entry>, sequences: map<string, int>,
                         generations: map<string, int>, faulted: bool)

  const NOTHING: State := State(false, Entries([], map[]), map[], map[], map[], false)

  // ---------------------------------------------------------- the overlay

  function AdmittedOf(keys: seq<string>, values: map<string, Entry>): seq<Record> {
    if keys == [] then []
    else
      var front, key := keys[..|keys| - 1], keys[|keys| - 1];
      AdmittedOf(front, values) + (if key in values && values[key].record.status == ADMITTED then [values[key].record] else [])
  }

  function Without(keys: seq<string>, key: string): seq<string> {
    if keys == [] then []
    else Without(keys[..|keys| - 1], key) + (if keys[|keys| - 1] == key then [] else [keys[|keys| - 1]])
  }

  function Admitted(e: Entries): seq<Record> {
    AdmittedOf(e.keys, e.values)
  }

  function Find(rs: seq<Reservation>, instanceId: string): (i: nat)
    ensures i <= |rs|
    ensures i < |rs| ==> rs[i].instanceId == instanceId
    ensures forall j :: 0 <= j < i ==> rs[j].instanceId != instanceId
  {
    if rs == [] || rs[0].instanceId == instanceId then 0 else 1 + Find(rs[1..], instanceId)
  }

  /** Insert, or replace in place. */
  function Upsert(rs: seq<Reservation>, r: Reservation): seq<Reservation> {
    var i := Find(rs, r.instanceId);
    if i < |rs| then rs[i := r] else rs + [r]
  }

  function Deduplicated(rs: seq<Reservation>): seq<Reservation> {
    if rs == [] then [] else Upsert(Deduplicated(rs[..|rs| - 1]), rs[|rs| - 1])
  }

  function Reserve(rs: seq<Reservation>, r: Record): seq<Reservation> {
    var i := Find(rs, r.instanceId);
    var (notional, count) := if i < |rs| then (rs[i].notional, rs[i].count) else (0.0, 0);
    Upsert(rs, Exposure.Reservation(r.instanceId, r.strategyId, r.strategyVersion, r.parameterHash, notional + r.notional, count + 1))
  }

  function Raise(m: map<string, real>, key: string, amount: real): map<string, real> {
    m[key := Exposure.At(m, key) + amount]
  }

  /** One turn of the loop of `buildPending`. */
  function Granted(p: Pending, r: Record): Pending
    requires p.KNOWN?
  {
    Exposure.KNOWN(p.global + r.notional, Raise(p.perPair, r.pair, r.notional), Raise(p.perStrategy, r.strategyId, r.notional),
                   if r.direction == LONG then p.long + r.notional else p.long,
                   if r.direction == LONG then p.short else p.short + r.notional,
                   p.count + 1, Reserve(p.reservations, r))
  }

  /** An unknown base counts as known and empty. */
  function Seed(base: Pending): (p: Pending)
    ensures p.KNOWN?
  {
    if base.UNKNOWN? then Exposure.KNOWN(0.0, map[], map[], 0.0, 0.0, 0, [])
    else base.(reservations := Deduplicated(base.reservations))
  }

  function BuildPending(base: Pending, admitted: seq<Record>): (p: Pending)
    ensures p.KNOWN?
  {
    if admitted == [] then Seed(base) else Granted(BuildPending(base, admitted[..|admitted| - 1]), admitted[|admitted| - 1])
  }

  /** The source's loop. */
  method ComputePending(base: Pending, admitted: seq<Record>) returns (p: Pending)
    ensures p == BuildPending(base, admitted)
  {
    p := Seed(base);
    var i := 0;
    while i < |admitted|
      invariant 0 <= i <= |admitted| && p.KNOWN? && p == BuildPending(base, admitted[..i])
    {
      assert admitted[..i + 1][..i] == admitted[..i];
      p := Granted(p, admitted[i]);
      i := i + 1;
    }
    assert admitted[..i] == admitted;
  }

  function Overlay(records: seq<Record>, c: Context): Context {
    if c.exposure.None? then c
    else c.(exposure := Some(c.exposure.value.(pending := BuildPending(c.exposure.value.pending, records))))
  }

  // -------------------------------------------------------------- admission

  datatype Outcome =
    | Thrown
    | Admission(record: Record, decision: Verdict)
    | Stale(latest: int)
    | Refused
    | NoCapacityOwned

  function Latest(m: map<string, int>, key: string): int {
    if key in m then m[key] else 0
  }

  function Max(x: int, y: int): int {
    if x >= y then x else y
  }

  function NextGeneration(s: State, decisionId: string): int {
    var live := if decisionId in s.byDecision.values then s.byDecision.values[decisionId].record.generation else 0;
    Max(live, Latest(s.generations, decisionId)) + 1
  }

  function NewRecord(s: State, q: Request, overlaid: Context, notional: real, margin: real): Record {
    var d := q.context.decision;
    var riskDecisionId := RiskDecisionId(q.policy, overlaid, notional, margin);
    var generation := NextGeneration(s, d.decisionId);
    Record(AdmissionId(riskDecisionId, d.instanceId, d.pair, notional, margin, generation), generation, riskDecisionId, d.decisionId,
           d.instanceId, d.strategyId, d.strategyVersion, d.parameterHash, d.pair, d.sequence, d.target, notional, margin, ADMITTED)
  }

  /** Both indexes hold the same entry. */
  function Filed(s: State, e: Entry): State {
    s.(known := true, byDecision := s.byDecision.Set(e.record.decisionId, e), byAdmission := s.byAdmission[e.record.id := e])
  }

  function Grant(s: State, e: Entry): State {
    Filed(s, e).(sequences := s.sequences[e.record.instanceId := e.record.sequence],
                 generations := s.generations[e.record.decisionId := e.record.generation])
  }

  /** The same decision is still admitted: it is not evaluated again, unless it was restored without its decision. */
  function Resubmitted(s: State, q: Request, engine: RiskEngine, existing: Entry): (State, Outcome) {
    if existing.decision.Some? then (s, Admission(existing.record, existing.decision.value))
    else
      var id := q.context.decision.decisionId;
      var overlaid := Overlay(AdmittedOf(Without(s.byDecision.keys, id), s.byDecision.values), q.context);
      match engine(q.policy, overlaid)
      case OPEN_ACCEPTED(notional, margin) =>
        if RiskDecisionId(q.policy, overlaid, notional, margin) != existing.record.riskDecisionId then (s, Thrown)
        else
          var healed := existing.(decision := Some(OPEN_ACCEPTED(notional, margin)));
          (Filed(s, healed), Admission(existing.record, OPEN_ACCEPTED(notional, margin)))
      case _ => (s, Thrown)
  }

  function Admit(s: State, q: Request, engine: RiskEngine): (State, Outcome) {
    var d := q.context.decision;
    if s.faulted then (s, Thrown)
    else if d.decisionId in s.byDecision.values && s.byDecision.values[d.decisionId].record.status == ADMITTED then
      Resubmitted(s, q, engine, s.byDecision.values[d.decisionId])
    else if d.sequence < Latest(s.sequences, d.instanceId) then (s, Stale(Latest(s.sequences, d.instanceId)))
    else
      var overlaid := Overlay(Admitted(s.byDecision), q.context);
      match engine(q.policy, overlaid)
      case REJECTED => (s, Refused)
      case CLOSE_ACCEPTED => (s, NoCapacityOwned)
      case OTHER_ACCEPTED => (s, Thrown)
      case OPEN_ACCEPTED(notional, margin) =>
        if d.target == FLAT then (s, Thrown)
        else
          var record := NewRecord(s, q, overlaid, notional, margin);
          (Grant(s, Entry(record, Some(OPEN_ACCEPTED(notional, margin)), None)), Admission(record, OPEN_ACCEPTED(notional, margin)))
  }

  datatype ReleaseOutcome = ReleaseThrown | UNKNOWN_ADMISSION | ALREADY_RELEASED(record: Record) | Released(record: Record)

  function Release(s: State, id: AdmissionId): (State, ReleaseOutcome) {
    if s.faulted then (s, ReleaseThrown)
    else if id !in s.byAdmission then (s, UNKNOWN_ADMISSION)
    else if s.byAdmission[id].record.status == RELEASED then (s, ALREADY_RELEASED(s.byAdmission[id].record))
    else
      var e := s.byAdmission[id];
      var released := e.(record := e.record.(status := RELEASED));
      (s.(byAdmission := s.byAdmission[id := released],
          byDecision := if s.known then s.byDecision.Set(e.record.decisionId, released) else s.byDecision),
       Released(released.record))
  }

  datatype ConsumeOutcome = CONSUMED | ALREADY_CONSUMED_SAME_INTENT | UNAVAILABLE

  function Consume(s: State, id: AdmissionId, intentId: string): (State, ConsumeOutcome) {
    if s.faulted || id !in s.byAdmission || s.byAdmission[id].record.status != ADMITTED then (s, UNAVAILABLE)
    else
      var e := s.byAdmission[id];
      if e.consumedBy == Some(intentId) then (s, ALREADY_CONSUMED_SAME_INTENT)
      else if e.consumedBy.Some? then (s, UNAVAILABLE)
      else
        var consumed := e.(consumedBy := Some(intentId));
        (s.(byAdmission := s.byAdmission[id := consumed],
            byDecision := if s.known then s.byDecision.Set(e.record.decisionId, consumed) else s.byDecision), CONSUMED)
  }

  // ------------------------------------------------------------ restoration

  /** Rows and watermarks read back from durable storage. */
  datatype Batch = Batch(records: seq<Record>, sequences: seq<(string, int)>, generations: seq<(string, int)>)

  predicate RecordsValid(rs: seq<Record>) {
    && (forall r <- rs :: r.status == ADMITTED)
    && (forall i, j :: 0 <= i < j < |rs| ==> rs[i].decisionId != rs[j].decisionId)
  }

  predicate BatchValid(b: Batch) {
    && RecordsValid(b.records)
    && (forall w <- b.sequences :: SafeInteger(w.1) && w.1 >= 0)
    && (forall i, j :: 0 <= i < j < |b.sequences| ==> b.sequences[i].0 != b.sequences[j].0)
    && (forall w <- b.generations :: SafeInteger(w.1) && w.1 >= 1)
  }

  function RestoredEntry(r: Record): Entry {
    Entry(r, None, None)
  }

  function RestoredEntries(rs: seq<Record>): Entries {
    if rs == [] then Entries([], map[])
    else RestoredEntries(rs[..|rs| - 1]).Set(rs[|rs| - 1].decisionId, RestoredEntry(rs[|rs| - 1]))
  }

  function RestoredIds(rs: seq<Record>, ids: map<AdmissionId, Entry>): map<AdmissionId, Entry> {
    if rs == [] then ids else RestoredIds(rs[..|rs| - 1], ids)[rs[|rs| - 1].id := RestoredEntry(rs[|rs| - 1])]
  }

  function RestoredSequences(ws: seq<(string, int)>): map<string, int> {
    if ws == [] then map[] else RestoredSequences(ws[..|ws| - 1])[ws[|ws| - 1].0 := ws[|ws| - 1].1]
  }

  function RecordGenerations(rs: seq<Record>): map<string, int> {
    if rs == [] then map[] else RecordGenerations(rs[..|rs| - 1])[rs[|rs| - 1].decisionId := rs[|rs| - 1].generation]
  }

  function RestoredGenerations(rs: seq<Record>, ws: seq<(string, int)>): map<string, int> {
    if ws == [] then RecordGenerations(rs)
    else
      var m := RestoredGenerations(rs, ws[..|ws| - 1]);
      var (id, g) := ws[|ws| - 1];
      if g > Latest(m, id) then m[id := g] else m
  }

  function Replaced(s: State, b: Batch, ids: map<AdmissionId, Entry>): State {
    State(true, RestoredEntries(b.records), RestoredIds(b.records, ids), RestoredSequences(b.sequences),
          RestoredGenerations(b.records, b.generations), s.faulted)
  }

  /** Start-up restoration; `None` if it throws. */
  function Restore(s: State, b: Batch): Option<State> {
    if s.faulted || s.known || !BatchValid(b) then None else Some(Replaced(s, b, s.byAdmission))
  }

  function CurrentIds(e: Entries): set<AdmissionId> {
    set key <- e.values :: e.values[key].record.id
  }

  /** Fault recovery: only the current entries leave the index by id. */
  function RestoreAuthoritative(s: State, b: Batch): Option<State> {
    if !BatchValid(b) then None
    else Some(Replaced(s, b, s.byAdmission - CurrentIds(s.byDecision)).(faulted := false))
  }
}
