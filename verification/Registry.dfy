/** Model of src/coin-runtime/registry.ts and lifecycle.ts: two indexes over the same records, revisions that fence
    asynchronous work, and readiness proofs.

    Records, proofs and running initializations have identities: their positions in the sequences that hold them.
    Underlying symbols are canonical here. */
module Registry {
  import opened Common

  datatype Lifecycle =
    | DISCOVERED
    | DATA_LOADING
    | DATA_READY
    | BACKTESTING
    | RESEARCH_APPROVED
    | PAPER
    | PAPER_APPROVED
    | SHADOW
    | LIVE_CANDIDATE
    | LIVE
    | DISABLED

  function AllowedNext(current: Lifecycle): set<Lifecycle> {
    match current
    case DISCOVERED => {DATA_LOADING, DISABLED}
    case DATA_LOADING => {DATA_READY, DISABLED}
    case DATA_READY => {BACKTESTING, DATA_LOADING, DISABLED}
    case BACKTESTING => {RESEARCH_APPROVED, DATA_READY, DISABLED}
    case RESEARCH_APPROVED => {PAPER, BACKTESTING, DISABLED}
    case PAPER => {PAPER_APPROVED, RESEARCH_APPROVED, DISABLED}
    case PAPER_APPROVED => {SHADOW, PAPER, DISABLED}
    case SHADOW => {LIVE_CANDIDATE, PAPER_APPROVED, DISABLED}
    case LIVE_CANDIDATE => {LIVE, SHADOW, DISABLED}
    case LIVE => {DISABLED}
    case DISABLED => {}
  }

  const FUNDING_BLOCKED: set<Lifecycle> := {PAPER_APPROVED, SHADOW, LIVE_CANDIDATE, LIVE}

  predicate ValidTransition(current: Lifecycle, target: Lifecycle, liveEnabled: bool) {
    current != target && (target == LIVE ==> liveEnabled) && target in AllowedNext(current)
  }

  /** Funding evidence does not exist, so the funding gate is always shut. */
  predicate AuthorizedTransition(current: Lifecycle, target: Lifecycle, liveEnabled: bool) {
    ValidTransition(current, target, liveEnabled) && target !in FUNDING_BLOCKED
  }

  // ------------------------------------------------------------------ state

  /** What `String.prototype.trim` removes. */
  predicate IsSpace(c: char) {
    || c in {'\t', '\n', '\r', ' ', '\U{000B}', '\U{000C}', '\U{00A0}', '\U{FEFF}', '\U{1680}', '\U{2028}', '\U{2029}', '\U{202F}',
             '\U{205F}', '\U{3000}'}
    || '\U{2000}' <= c <= '\U{200A}'
  }

  function Trim(s: string): string {
    if s == "" then s
    else if IsSpace(s[0]) then Trim(s[1..])
    else if IsSpace(s[|s| - 1]) then Trim(s[..|s| - 1])
    else s
  }

  datatype Profile = Profile(underlying: string, liveEnabled: bool, otherSettings: int)

  datatype Instrument = Instrument(pair: string, quoteCurrency: string, otherMetadata: int)

  predicate UpperOrDigit(c: char) {
    'A' <= c <= 'Z' || '0' <= c <= '9'
  }

  predicate Word(s: string) {
    s != "" && forall c <- s :: UpperOrDigit(c)
  }

  /** What `assertDataInitializationMetadata` demands of the pair: `B-`, the underlying, `_` and the quote currency. */
  predicate PairNamesInstrument(p: Profile, i: Instrument) {
    Word(p.underlying) && Word(i.quoteCurrency) && i.pair == "B-" + p.underlying + "_" + i.quoteCurrency
  }

  /** A runtime to register; without an instrument it is an undiscovered, disabled one. */
  datatype Runtime = Runtime(profile: Profile, instrument: Option<Instrument>, lifecycle: Lifecycle)

  datatype Readiness = Readiness(lifecycleRevision: int, evidence: nat)

  datatype Record = Record(profile: Profile, instrument: Option<Instrument>, lifecycle: Lifecycle, dataReadiness: Option<Readiness>)

  datatype Proof = Proof(underlying: string, pair: string, lifecycleRevision: int, operationRevision: int)

  datatype Promotion = Promotion(record: nat, operationRevision: int)

  datatype Issued = Issued(proof: Proof, record: nat, instrument: Instrument, promoted: Option<Promotion>)

  /** An initialization between its two synchronous parts. */
  datatype Preparation = Preparation(key: string, record: nat, lifecycleRevision: int, operationRevision: int, settled: bool)

  datatype State = State(records: seq<Record>, byUnderlying: map<string, nat>, byPair: map<string, nat>, revisions: map<string, int>,
                         lifecycleRevisions: map<string, int>, issued: seq<Issued>, preparations: seq<Preparation>)

  const EMPTY: State := State([], map[], map[], map[], map[], [], [])

  function Latest(m: map<string, int>, key: string): int {
    if key in m then m[key] else 0
  }

  function Bumped(m: map<string, int>, key: string): map<string, int> {
    m[key := Latest(m, key) + 1]
  }

  predicate Known(s: State, key: string) {
    key in s.byUnderlying && s.byUnderlying[key] < |s.records|
  }

  /** The record now registered under a symbol. */
  function Current(s: State, key: string): Record
    requires Known(s, key)
  {
    s.records[s.byUnderlying[key]]
  }

  predicate Discovered(s: State, key: string) {
    Known(s, key) && Current(s, key).instrument.Some?
  }

  // -------------------------------------------------------------- operations

  function BeginDiscovery(s: State, key: string): State {
    s.(revisions := Bumped(s.revisions, key))
  }

  /** Every lifecycle mutation revokes older asynchronous ownership, and older evidence. */
  function Notified(s: State, key: string, readiness: Option<nat>): State {
    var revision := Latest(s.lifecycleRevisions, key) + 1;
    var evidence := if readiness.Some? then Some(Readiness(revision, readiness.value)) else None;
    s.(revisions := Bumped(s.revisions, key), lifecycleRevisions := s.lifecycleRevisions[key := revision],
       records := if Discovered(s, key) then s.records[s.byUnderlying[key] := Current(s, key).(dataReadiness := evidence)] else s.records)
  }

  predicate InitialLifecycle(r: Runtime) {
    r.lifecycle == DISCOVERED || r.lifecycle == DISABLED
  }

  function NewRecord(r: Runtime): Record {
    Record(r.profile, r.instrument, if r.instrument.None? then DISABLED else r.lifecycle, None)
  }

  function Installed(s: State, r: Runtime): State {
    var (key, id) := (r.profile.underlying, |s.records|);
    var s1 := s.(records := s.records + [NewRecord(r)], byUnderlying := s.byUnderlying[key := id],
                 byPair := if r.instrument.Some? then s.byPair[Trim(r.instrument.value.pair) := id] else s.byPair);
    Notified(s1, key, None)
  }

  /** `None` where the source throws. */
  function Register(s: State, r: Runtime): Option<State> {
    if !InitialLifecycle(r) || r.profile.underlying in s.byUnderlying then None
    else if r.instrument.Some? && Trim(r.instrument.value.pair) in s.byPair then None
    else Some(Installed(s, r))
  }

  predicate OwnedByOther(s: State, pair: string, key: string) {
    pair in s.byPair && s.byPair[pair] < |s.records| && s.records[s.byPair[pair]].profile.underlying != key
  }

  /** The runtime's old pair leaves the index if it has a new one. */
  function Unfiled(s: State, key: string, newPair: string): State {
    if !Discovered(s, key) then s
    else
      var oldPair := Trim(Current(s, key).instrument.value.pair);
      if oldPair == newPair then s else s.(byPair := s.byPair - {oldPair})
  }

  function ReplaceOrRegister(s: State, r: Runtime): Option<State> {
    if r.instrument.None? || !InitialLifecycle(r) then None
    else
      var (key, newPair) := (r.profile.underlying, Trim(r.instrument.value.pair));
      if OwnedByOther(s, newPair, key) then None else Some(Installed(Unfiled(s, key, newPair), r))
  }

  function TransitionLifecycle(s: State, key: string, next: Lifecycle): Option<State> {
    if next == DATA_READY || !Known(s, key) then None
    else
      var record := Current(s, key);
      if record.lifecycle == DISABLED && next == DISABLED then Some(Notified(s, key, None))
      else if !AuthorizedTransition(record.lifecycle, next, record.profile.liveEnabled) then None
      else Some(Notified(s.(records := s.records[s.byUnderlying[key] := record.(lifecycle := next)]), key, None))
  }

  /** Both indexes empty, and some of the coins ever seen notified. */
  function Cleared(s: State, notified: set<string>): State {
    s.(byUnderlying := map[], byPair := map[],
       revisions := map key <- s.revisions :: if key in notified then s.revisions[key] + 1 else s.revisions[key],
       lifecycleRevisions := map key <- notified + s.lifecycleRevisions.Keys ::
         if key in notified then Latest(s.lifecycleRevisions, key) + 1 else s.lifecycleRevisions[key])
  }

  function Clear(s: State): State {
    Cleared(s, s.revisions.Keys)
  }

  /** The part of `prepareDataReadiness` before its wait. */
  function Prepare(s: State, key: string): Option<State> {
    if !Discovered(s, key) || !ValidTransition(Current(s, key).lifecycle, DATA_READY, Current(s, key).profile.liveEnabled) then None
    else
      var s1 := BeginDiscovery(s, key);
      var p := Preparation(key, s.byUnderlying[key], Latest(s.lifecycleRevisions, key), s1.revisions[key], false);
      Some(s1.(preparations := s.preparations + [p]))
  }

  predicate Owns(s: State, p: Preparation) {
    && p.key in s.byUnderlying && s.byUnderlying[p.key] == p.record && p.record < |s.records|
    && Latest(s.revisions, p.key) == p.operationRevision && Latest(s.lifecycleRevisions, p.key) == p.lifecycleRevision
  }

  /** The part after it: `answer` is the instrument, mapped and validated but for its pair, or nothing if any of that failed. */
  function Settle(s: State, i: nat, answer: Option<Instrument>): State {
    if i >= |s.preparations| || s.preparations[i].settled then s
    else
      var p := s.preparations[i];
      var s1 := s.(preparations := s.preparations[i := p.(settled := true)]);
      if !Owns(s, p) || answer.None? || s.records[p.record].instrument.None?
         || answer.value.pair != s.records[p.record].instrument.value.pair
         || !PairNamesInstrument(s.records[p.record].profile, answer.value) then s1
      else
        var proof := Proof(p.key, answer.value.pair, p.lifecycleRevision, p.operationRevision);
        s1.(issued := s.issued + [Issued(proof, p.record, answer.value, None)])
  }

  predicate Matches(s: State, key: string, proof: nat) {
    && proof < |s.issued| && Discovered(s, key) && s.issued[proof].proof.underlying == key
    && s.issued[proof].proof.pair == Current(s, key).instrument.value.pair
  }

  /** Promoted by this proof before, and untouched since. */
  predicate AlreadyPromoted(s: State, key: string, proof: nat)
    requires Matches(s, key, proof)
  {
    var promoted := s.issued[proof].promoted;
    && promoted.Some? && s.byUnderlying[key] == promoted.value.record && Current(s, key).lifecycle == DATA_READY
    && Current(s, key).dataReadiness.Some? && Current(s, key).dataReadiness.value.evidence == proof
    && Latest(s.revisions, key) == promoted.value.operationRevision
  }

  /** Record, operation revision and lifecycle revision are all still the ones the proof was issued for. */
  predicate StillCurrent(s: State, key: string, proof: nat)
    requires Matches(s, key, proof)
  {
    var i := s.issued[proof];
    && s.byUnderlying[key] == i.record && Latest(s.revisions, key) == i.proof.operationRevision
    && Latest(s.lifecycleRevisions, key) == i.proof.lifecycleRevision
  }

  predicate PromotesAfresh(s: State, key: string, proof: nat) {
    && Matches(s, key, proof) && !AlreadyPromoted(s, key, proof) && StillCurrent(s, key, proof)
    && ValidTransition(Current(s, key).lifecycle, DATA_READY, Current(s, key).profile.liveEnabled)
  }

  function Promoted(s: State, key: string, proof: nat): State
    requires Matches(s, key, proof)
  {
    var (i, id) := (s.issued[proof], |s.records|);
    var promoted := Current(s, key).(lifecycle := DATA_READY, instrument := Some(i.instrument));
    var s1 := s.(records := s.records + [promoted], byUnderlying := s.byUnderlying[key := id], byPair := s.byPair[i.proof.pair := id],
                 issued := s.issued[proof := i.(promoted := Some(Promotion(id, Latest(s.revisions, key) + 1)))]);
    Notified(s1, key, Some(proof))
  }

  function PromoteDataReady(s: State, key: string, proof: nat): Option<State> {
    if !Matches(s, key, proof) then None
    else if AlreadyPromoted(s, key, proof) then Some(s)
    else if PromotesAfresh(s, key, proof) then Some(Promoted(s, key, proof))
    else None
  }

  datatype Operation =
    | DoBeginDiscovery(key: string)
    | DoRegister(runtime: Runtime)
    | DoReplace(runtime: Runtime)
    | DoTransition(key: string, next: Lifecycle)
    | DoClear
    | DoPrepare(key: string)
    | DoSettle(preparation: nat, answer: Option<Instrument>)
    | DoPromote(key: string, proof: nat)

  /** An operation that throws changes nothing. */
  function Apply(s: State, op: Operation): State {
    match op
    case DoBeginDiscovery(key) => BeginDiscovery(s, key)
    case DoRegister(r) => Register(s, r).GetOr(s)
    case DoReplace(r) => ReplaceOrRegister(s, r).GetOr(s)
    case DoTransition(key, next) => TransitionLifecycle(s, key, next).GetOr(s)
    case DoClear => Clear(s)
    case DoPrepare(key) => Prepare(s, key).GetOr(s)
    case DoSettle(i, answer) => Settle(s, i, answer)
    case DoPromote(key, proof) => PromoteDataReady(s, key, proof).GetOr(s)
  }
}
