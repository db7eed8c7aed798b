/** Model of src/market-data/pair-state.ts: the canonical one-minute state machine
    of one pair.

    The source's methods are cut at every `await`, because anything else may run
    there. Each uninterrupted piece is a function from the machine's state to its
    next state, and `React` collects the pieces: every change a machine can ever
    undergo is its reaction to one stimulus. Health labels, freshness telemetry and
    the counters steer no decision that matters here and are not modelled. */
module PairState {
  import opened Common
  import opened WorkingCandle

  const MIN_CANONICAL_OPEN_TIME_MS: int := 1_577_836_800_000

  datatype TruthFault =
    NONE | CANONICAL_CONFLICT | PERSISTENCE_FAILURE | RECOVERY_INCOMPLETE | BUFFER_OVERFLOW | TIME_INVALID

  datatype Origin = LIVE_FINALIZATION | REST_RECOVERY

  datatype EmptyReconciliation = NO_BASELINE | NOTHING_MISSING

  datatype Token = Token(canonicalEpoch: int, recoveryEpoch: int, generationId: Option<int>)

  /** A final candle, built from a working snapshot or a REST record. */
  datatype Candle = Candle(pair: string, openTimeMs: int, values: Values)

  datatype Candidate = Candidate(openTimeMs: int, origin: Origin, token: Token, prebuilt: Option<Candle>)

  datatype Pending = Pending(timerId: nat, providerEventTimeMs: int)

  /** An armed grace timer: the arguments its callback closed over. */
  datatype Timer = Timer(openTimeMs: int, token: Token)

  datatype Envelope = Envelope(pair: string, openTimeMs: int, closeTimeMs: int, oneMinute: bool,
                               providerEventTimeMs: int, values: Values,
                               sequence: int, receivedAtMs: int, generationId: int)

  datatype Config = Config(finalizationGraceMs: nat, maxFutureSkewMs: nat, maxRecoveryBuffer: nat, staleThresholdMs: nat)

  /** The one commit in flight: waiting for its candle to be persisted, or finished
      and waiting for its `finally` clause to run. */
  datatype Flight = Persisting(candidate: Candidate, candle: Candle) | Returned(candidate: Candidate)

  datatype Machine = Machine(
    pair: string,
    working: Manager,
    pendingFinalizations: map<int, Pending>,
    timers: map<nat, Timer>,
    nextTimer: nat,
    recoveryBuffer: seq<Envelope>,
    readyToCommit: map<int, Candidate>,
    flight: Option<Flight>,
    waiters: map<nat, int>,
    nextWaiter: nat,
    recoveryActive: bool,
    reconnectRecoveryFromMs: Option<int>,
    emptyReconciliation: Option<EmptyReconciliation>,
    truthFault: TruthFault,
    canonicalEpoch: int,
    recoveryEpoch: int,
    generationId: Option<int>,
    latest: Option<int>,
    stopped: bool)

  function NewMachine(pair: string, baseline: Option<int>): Machine {
    Machine(pair, EMPTY, map[], map[], 0, [], map[], None, map[], 0, false, None, None, NONE, 1, 1, None, baseline, false)
  }

  // ---------------------------------------------------------------- tokens

  function CurrentToken(m: Machine): Token {
    Token(m.canonicalEpoch, m.recoveryEpoch, m.generationId)
  }

  predicate TokenValid(m: Machine, token: Token, origin: Origin) {
    && !m.stopped
    && token.canonicalEpoch == m.canonicalEpoch
    && (origin == REST_RECOVERY ==> token.recoveryEpoch == m.recoveryEpoch)
    && !(token.generationId.Some? && m.generationId.Some? && token.generationId != m.generationId)
  }

  // --------------------------------------------------------- small helpers

  /** Every awaiter of `openTimeMs` resumes. */
  function ResolveSettled(m: Machine, openTimeMs: int): Machine {
    m.(waiters := map id | id in m.waiters && m.waiters[id] != openTimeMs :: m.waiters[id])
  }

  function ResolveAllReady(m: Machine): Machine {
    m.(waiters := map id | id in m.waiters && m.waiters[id] !in m.readyToCommit :: m.waiters[id])
  }

  function TimerIds(pending: map<int, Pending>): set<nat> {
    set t <- pending :: pending[t].timerId
  }

  function ClearAllPending(m: Machine): Machine {
    var m1 := m.(timers := m.timers - TimerIds(m.pendingFinalizations), pendingFinalizations := map[]);
    ResolveAllReady(m1).(readyToCommit := map[])
  }

  /** The forming candles and the buffered packets are no longer trusted. */
  function Forget(m: Machine): Machine {
    m.(working := Cleared(m.working, m.pair), recoveryBuffer := [])
  }

  function LatchFatal(m: Machine, fault: TruthFault): Machine {
    Forget(ClearAllPending(m.(truthFault := fault)))
  }

  // ------------------------------------------------------------ recoveries

  function EnterRecovery(m: Machine): Machine {
    if m.stopped then m
    else ClearAllPending(m.(recoveryEpoch := m.recoveryEpoch + 1, recoveryActive := true, emptyReconciliation := None))
  }

  function LatchRecoveryFault(m: Machine, fault: TruthFault, recoveryEpoch: int): Machine {
    if m.stopped || recoveryEpoch != m.recoveryEpoch || m.truthFault != NONE then m
    else m.(truthFault := fault, recoveryActive := true)
  }

  function AwaitReconnectHandoff(m: Machine, result: EmptyReconciliation): Machine {
    if !m.stopped && m.recoveryActive then m.(emptyReconciliation := Some(result)) else m
  }

  /** The minutes that a reconnect must not lose: the forming one, those in grace, and an earlier unfinished debt. */
  function Unresolved(m: Machine): set<int> {
    m.pendingFinalizations.Keys +
    (var c := CurrentOpenTime(m.working, m.pair); if c.Some? then {c.value} else {}) +
    (if m.reconnectRecoveryFromMs.Some? then {m.reconnectRecoveryFromMs.value} else {})
  }

  ghost function ReconnectFrom(m: Machine): Option<int> {
    if m.latest.Some? then Some(m.latest.value + MINUTE_MS)
    else if Unresolved(m) == {} then None
    else Some(Least(Unresolved(m)))
  }

  ghost function ReconnectBarrier(m: Machine, newGeneration: int): Machine {
    if m.stopped || (m.generationId.Some? && newGeneration < m.generationId.value) then m
    else
      var m1 := m.(reconnectRecoveryFromMs := ReconnectFrom(m), generationId := Some(newGeneration),
                   canonicalEpoch := m.canonicalEpoch + 1, recoveryEpoch := m.recoveryEpoch + 1);
      Forget(ClearAllPending(m1)).(recoveryActive := true, emptyReconciliation := None)
  }

  // ------------------------------------------------------- the commit queue

  /** `createCanonicalCandle1m`: the structural checks on a final candle. */
  predicate CandleConstructible(openTimeMs: int, v: Values, finalizedAtMs: int) {
    && SafeInteger(openTimeMs) && openTimeMs >= MIN_CANONICAL_OPEN_TIME_MS && openTimeMs % MINUTE_MS == 0
    && SafeInteger(openTimeMs + MINUTE_MS)
    && v.open >= 0.0 && v.high >= 0.0 && v.low >= 0.0 && v.close >= 0.0 && v.volume >= 0.0
    && (v.quoteVolume.Some? ==> v.quoteVolume.value >= 0.0)
    && v.high >= v.low && v.high >= v.open && v.high >= v.close && v.low <= v.open && v.low <= v.close
    && SafeInteger(finalizedAtMs) && finalizedAtMs >= openTimeMs + MINUTE_MS
  }

  predicate FaultBlocks(m: Machine, origin: Origin) {
    m.truthFault != NONE && !(m.truthFault == RECOVERY_INCOMPLETE && origin == REST_RECOVERY)
  }

  /** What a commit has to write, if anything. */
  datatype Draft = Nothing | Malformed | Final(candle: Candle)

  function DraftOf(m: Machine, c: Candidate, now: int): Draft {
    if !TokenValid(m, c.token, c.origin) || (c.origin == LIVE_FINALIZATION && m.recoveryActive) || FaultBlocks(m, c.origin) then Nothing
    else if c.origin == REST_RECOVERY then
      if c.prebuilt.Some? then Final(c.prebuilt.value) else Nothing
    else if Key(m.pair, c.openTimeMs) !in m.working.working then Nothing
    else
      var s := m.working.working[Key(m.pair, c.openTimeMs)];
      if CandleConstructible(s.openTimeMs, s.values, now) then Final(Candle(s.pair, s.openTimeMs, s.values)) else Malformed
  }

  /** `#commitOne` up to its first await. */
  function StartCommit(m: Machine, c: Candidate, now: int): Machine {
    match DraftOf(m, c, now)
    case Nothing => m.(flight := Some(Returned(c)))
    case Malformed => m.(flight := Some(Returned(c)), truthFault := PERSISTENCE_FAILURE)
    case Final(candle) => m.(flight := Some(Persisting(c, candle)))
  }

  ghost function Drain(m: Machine, now: int): Machine
    decreases |m.readyToCommit|
  {
    if m.stopped || m.flight.Some? || m.readyToCommit == map[] then m
    else
      assert m.readyToCommit.Keys != {};
      var t := Least(m.readyToCommit.Keys);
      var c := m.readyToCommit[t];
      if FaultBlocks(m, c.origin) then ResolveAllReady(m)
      else if m.latest.Some? && t <= m.latest.value then
        var m1 := m.(readyToCommit := m.readyToCommit - {t}, pendingFinalizations := m.pendingFinalizations - {t});
        Drain(ResolveSettled(m1, t), now)
      else if m.latest.Some? && t != m.latest.value + MINUTE_MS then m
      else StartCommit(m.(readyToCommit := m.readyToCommit - {t}), c, now)
  }

  ghost function Enqueue(m: Machine, c: Candidate, now: int): Machine {
    if c.openTimeMs in m.readyToCommit && m.readyToCommit[c.openTimeMs].origin == REST_RECOVERY && c.origin == LIVE_FINALIZATION
    then m
    else Drain(m.(readyToCommit := m.readyToCommit[c.openTimeMs := c]), now)
  }

  /** `#commitOne` after `onFinalizeCandle` has answered. */
  function CommitSettled(m: Machine, acknowledged: bool): Machine {
    if m.flight.None? || m.flight.value.Returned? then m
    else
      var Persisting(c, candle) := m.flight.value;
      var m1 := m.(flight := Some(Returned(c)));
      if !acknowledged then m1.(truthFault := PERSISTENCE_FAILURE) else Advanced(m1, c, candle)
  }

  /** The candle is durable: the watermark follows, unless the commit has become stale. */
  function Advanced(m: Machine, c: Candidate, candle: Candle): Machine {
    if !TokenValid(m, c.token, c.origin) then m
    else
      m.(latest := if m.latest.None? || candle.openTimeMs > m.latest.value then Some(candle.openTimeMs) else m.latest,
         working := Deleted(m.working, Key(m.pair, c.openTimeMs)))
  }

  /** The `finally` clause of a commit. */
  ghost function CommitFinally(m: Machine, now: int): Machine {
    if m.flight.None? || m.flight.value.Persisting? then m
    else
      var t := m.flight.value.candidate.openTimeMs;
      Drain(ResolveSettled(m.(flight := None, pendingFinalizations := m.pendingFinalizations - {t}), t), now)
  }

  // ------------------------------------------------------ live finalisation

  /** An earlier timer of the minute is disarmed, and its place in the queue is lost. */
  function FinalizationCancelled(m: Machine, openTimeMs: int): Machine {
    if openTimeMs in m.pendingFinalizations
    then m.(timers := m.timers - {m.pendingFinalizations[openTimeMs].timerId}, readyToCommit := m.readyToCommit - {openTimeMs})
    else m
  }

  function ScheduleFinalization(m: Machine, openTimeMs: int, providerEventTimeMs: int): Machine {
    if m.recoveryActive || m.truthFault != NONE || providerEventTimeMs < openTimeMs + MINUTE_MS then m
    else
      var m1 := FinalizationCancelled(m, openTimeMs);
      m1.(timers := m1.timers[m.nextTimer := Timer(openTimeMs, CurrentToken(m))],
          pendingFinalizations := m.pendingFinalizations[openTimeMs := Pending(m.nextTimer, providerEventTimeMs)],
          nextTimer := m.nextTimer + 1)
  }

  /** An armed grace timer fires. */
  ghost function GraceElapsed(m: Machine, timerId: nat, now: int): Machine {
    if timerId !in m.timers then m
    else
      var Timer(t, token) := m.timers[timerId];
      var m1 := m.(timers := m.timers - {timerId});
      if m.stopped || t !in m.pendingFinalizations || m.recoveryActive then m1
      else if now < t + MINUTE_MS then ScheduleFinalization(m1, t, m.pendingFinalizations[t].providerEventTimeMs)
      else if !TokenValid(m, token, LIVE_FINALIZATION) then m1.(pendingFinalizations := m.pendingFinalizations - {t})
      else Enqueue(m1, Candidate(t, LIVE_FINALIZATION, token, None), now)
  }

  // ---------------------------------------------------------------- packets

  function SnapshotOf(e: Envelope): Snapshot {
    Snapshot(e.pair, e.openTimeMs, e.values, e.providerEventTimeMs, e.sequence, e.receivedAtMs, e.generationId)
  }

  function BufferIndex(buffer: seq<Envelope>, openTimeMs: int): (i: nat)
    ensures i <= |buffer| && (i < |buffer| ==> buffer[i].openTimeMs == openTimeMs)
    ensures forall j :: 0 <= j < i ==> buffer[j].openTimeMs != openTimeMs
  {
    if buffer == [] || buffer[0].openTimeMs == openTimeMs then 0 else 1 + BufferIndex(buffer[1..], openTimeMs)
  }

  function LatchEvidence(m: Machine, fault: EvidenceFault): Machine {
    LatchFatal(m, if fault == CONFLICT then CANONICAL_CONFLICT else BUFFER_OVERFLOW)
  }

  function BufferEnvelope(m: Machine, e: Envelope, cfg: Config): Machine {
    var (w, fault) := Observe(m.working, SnapshotOf(e));
    var m1 := m.(working := w);
    var i := BufferIndex(m.recoveryBuffer, e.openTimeMs);
    if fault.Some? then LatchEvidence(m1, fault.value)
    else if i < |m.recoveryBuffer| then
      var existing := m.recoveryBuffer[i];
      if e.providerEventTimeMs == existing.providerEventTimeMs && e.values != existing.values then LatchFatal(m1, CANONICAL_CONFLICT)
      else if e.providerEventTimeMs > existing.providerEventTimeMs then m1.(recoveryBuffer := m.recoveryBuffer[i := e])
      else m1
    else if |m.recoveryBuffer| >= cfg.maxRecoveryBuffer then LatchFatal(m1, BUFFER_OVERFLOW)
    else m1.(recoveryBuffer := m.recoveryBuffer + [e])
  }

  function ApplyWorking(m: Machine, e: Envelope): Machine {
    var (w, result) := Updated(m.working, SnapshotOf(e));
    var m1 := m.(working := w);
    if result.FAULTED? then LatchEvidence(m1, result.fault) else m1
  }

  /** What a reaction asks of the outside world. */
  datatype Effect =
    | NoEffect
    | RequestRecovery(fromMs: int, toMs: int, recoveryEpoch: int)
    | VerifyHistorical(envelope: Envelope, token: Token)

  predicate TimeSafe(e: Envelope, now: int, cfg: Config) {
    && SafeInteger(e.openTimeMs) && e.openTimeMs >= MIN_CANONICAL_OPEN_TIME_MS && e.openTimeMs % MINUTE_MS == 0
    && SafeInteger(e.providerEventTimeMs) && e.providerEventTimeMs >= e.openTimeMs
    && e.oneMinute && SafeInteger(e.closeTimeMs) && e.closeTimeMs == e.openTimeMs + 59_999
    && e.openTimeMs <= now + cfg.maxFutureSkewMs + MINUTE_MS
  }

  predicate SourceIsFresh(sourceMs: int, now: int, cfg: Config) {
    sourceMs <= now && now - sourceMs < cfg.staleThresholdMs
  }

  /** A gap has opened: recover `[fromMs, e.openTimeMs)` and keep `e` for afterwards. */
  function OpenGap(m: Machine, e: Envelope, fromMs: int, cfg: Config): (Machine, Effect) {
    var m1 := EnterRecovery(m);
    (BufferEnvelope(m1, e, cfg), RequestRecovery(fromMs, e.openTimeMs - MINUTE_MS, m1.recoveryEpoch))
  }

  /** Live classification, once no recovery is active and no fault is latched. */
  function AcceptLive(m: Machine, e: Envelope, cfg: Config): (Machine, Effect) {
    var current := CurrentOpenTime(m.working, m.pair);
    if current.None? && m.latest.Some? && e.openTimeMs > m.latest.value + MINUTE_MS then
      OpenGap(m, e, m.latest.value + MINUTE_MS, cfg)
    else if m.latest.Some? && e.openTimeMs <= m.latest.value then
      (m, VerifyHistorical(e, CurrentToken(m)))
    else if current.None? || e.openTimeMs == current.value then
      (ApplyWorking(m, e), NoEffect)
    else if e.openTimeMs < current.value then
      (if e.openTimeMs in m.pendingFinalizations then ApplyWorking(m, e) else m, NoEffect)
    else if e.openTimeMs - current.value == MINUTE_MS then
      (ApplyWorking(ScheduleFinalization(m, current.value, e.providerEventTimeMs), e), NoEffect)
    else
      OpenGap(m, e, current.value, cfg)
  }

  /** A packet while a recovery is active: it is buffered, unless an empty
      reconciliation is only waiting for fresh evidence of the forming minute. */
  function AcceptRecovering(m: Machine, e: Envelope, now: int, cfg: Config): (Machine, Effect) {
    if m.emptyReconciliation.None? || m.truthFault != NONE then
      (BufferEnvelope(m, e, cfg), NoEffect)
    else if !SourceIsFresh(e.providerEventTimeMs, now, cfg) then
      (m, NoEffect)
    else if m.reconnectRecoveryFromMs.Some? && e.openTimeMs < m.reconnectRecoveryFromMs.value then
      (m, NoEffect)
    else if m.reconnectRecoveryFromMs.Some? && e.openTimeMs > m.reconnectRecoveryFromMs.value then
      (BufferEnvelope(m.(emptyReconciliation := None), e, cfg),
       RequestRecovery(m.reconnectRecoveryFromMs.value, e.openTimeMs - MINUTE_MS, m.recoveryEpoch))
    else
      AcceptLive(m.(emptyReconciliation := None, reconnectRecoveryFromMs := None, recoveryActive := false), e, cfg)
  }

  function HandleEnvelope(m: Machine, e: Envelope, now: int, cfg: Config): (Machine, Effect) {
    if m.stopped || e.pair != m.pair || (m.generationId.Some? && e.generationId < m.generationId.value) then (m, NoEffect)
    else
      var m1 := m.(generationId := Some(e.generationId));
      if !TimeSafe(e, now, cfg) then (m1.(truthFault := TIME_INVALID), NoEffect)
      else if e.providerEventTimeMs > now + cfg.maxFutureSkewMs then (m1, NoEffect)
      else if m.truthFault != NONE && m.truthFault != RECOVERY_INCOMPLETE then (m1, NoEffect)
      else if m.recoveryActive then AcceptRecovering(m1, e, now, cfg)
      else if m.truthFault != NONE then (m1, NoEffect)
      else AcceptLive(m1, e, cfg)
  }

  // ------------------------------------------- verification of closed minutes

  datatype ReadAnswer = ReadFailed | Missing | Found(candle: Candle)

  predicate Compatible(a: Candle, b: Candle) {
    && a.pair == b.pair && a.openTimeMs == b.openTimeMs
    && SameValues(a.values, b.values)
  }

  /** Equal values, where an unknown quote volume contradicts nothing. */
  predicate SameValues(a: Values, b: Values) {
    && a.(quoteVolume := None) == b.(quoteVolume := None)
    && (a.quoteVolume.None? || b.quoteVolume.None? || a.quoteVolume == b.quoteVolume)
  }

  /** `#handleLatePostFinalizationUpdate` after the database has answered. */
  function Verified(m: Machine, e: Envelope, token: Token, answer: ReadAnswer): Machine {
    if !TokenValid(m, token, REST_RECOVERY) then m
    else match answer
      case ReadFailed => m.(truthFault := PERSISTENCE_FAILURE)
      case Missing => m.(truthFault := CANONICAL_CONFLICT)
      case Found(existing) =>
        if e.providerEventTimeMs < existing.openTimeMs + MINUTE_MS || SameValues(existing.values, e.values) then m
        else m.(truthFault := CANONICAL_CONFLICT)
  }

  // -------------------------------------------- application of a recovery

  /** Where `applyRecoveredCandlesAndDrainBuffer` is suspended. */
  datatype Phase =
    | Enqueuing(rest: seq<Candle>, awaiting: set<nat>)
    | CheckingOverlap(candle: Candle, rest: seq<Candle>, awaiting: set<nat>)
    | Settling(awaiting: set<nat>)
    | Reconciling(late: Envelope, lateToken: Token)
    | Draining(items: seq<Envelope>)
    | DrainVerifying(late: Envelope, lateToken: Token, items: seq<Envelope>)

  datatype Application = Application(token: Token, phase: Phase)

  datatype Next = Finished | Threw | Continue(application: Application)

  datatype Reaction = Reaction(machine: Machine, effect: Effect, next: Next)

  function Ended(m: Machine): Reaction {
    Reaction(m, NoEffect, Finished)
  }

  function BeginApplication(m: Machine, candles: seq<Candle>, recoveryEpoch: int): Next {
    if m.stopped || recoveryEpoch != m.recoveryEpoch then Finished
    else Continue(Application(CurrentToken(m), Enqueuing(candles, {})))
  }

  ghost function EnqueueRecovered(m: Machine, a: Application, now: int): Reaction
    requires a.phase.Enqueuing?
  {
    var Enqueuing(rest, awaiting) := a.phase;
    if rest == [] then Reaction(m, NoEffect, Continue(a.(phase := Settling(awaiting))))
    else if !TokenValid(m, a.token, REST_RECOVERY) then Ended(m)
    else
      var candle := rest[0];
      if candle.pair != m.pair then Ended(LatchFatal(m, CANONICAL_CONFLICT))
      else if m.latest.Some? && candle.openTimeMs <= m.latest.value then
        Reaction(m, NoEffect, Continue(a.(phase := CheckingOverlap(candle, rest[1..], awaiting))))
      else
        var m1 := m.(waiters := m.waiters[m.nextWaiter := candle.openTimeMs], nextWaiter := m.nextWaiter + 1);
        Reaction(Enqueue(m1, Candidate(candle.openTimeMs, REST_RECOVERY, a.token, Some(candle)), now), NoEffect,
                 Continue(a.(phase := Enqueuing(rest[1..], awaiting + {m.nextWaiter}))))
  }

  function OverlapChecked(m: Machine, a: Application, answer: ReadAnswer): Reaction
    requires a.phase.CheckingOverlap?
  {
    var CheckingOverlap(candle, rest, awaiting) := a.phase;
    if answer.ReadFailed? then Reaction(m, NoEffect, Threw)
    else if !TokenValid(m, a.token, REST_RECOVERY) then Ended(m)
    else if answer.Missing? || !Compatible(answer.candle, candle) then Ended(m.(truthFault := CANONICAL_CONFLICT))
    else Reaction(m, NoEffect, Continue(a.(phase := Enqueuing(rest, awaiting))))
  }

  /** The whole batch has settled, one way or another. */
  function BatchSettled(m: Machine, a: Application): Reaction
    requires a.phase.Settling?
  {
    if !TokenValid(m, a.token, REST_RECOVERY) then Ended(m)
    else
      var m1 := if m.truthFault == RECOVERY_INCOMPLETE then m.(truthFault := NONE) else m;
      if m1.truthFault != NONE then Ended(m1) else Reconcile(m1, a)
  }

  function FirstOverlap(buffer: seq<Envelope>, watermark: int): (i: nat)
    ensures i <= |buffer| && (i < |buffer| ==> buffer[i].openTimeMs <= watermark)
    ensures forall j :: 0 <= j < i ==> buffer[j].openTimeMs > watermark
  {
    if buffer == [] || buffer[0].openTimeMs <= watermark then 0 else 1 + FirstOverlap(buffer[1..], watermark)
  }

  /** Buffered packets for minutes that are already final are verified one by one; then the rest is handed to live handling. */
  function Reconcile(m: Machine, a: Application): Reaction {
    var i := if m.latest.Some? then FirstOverlap(m.recoveryBuffer, m.latest.value) else |m.recoveryBuffer|;
    if i < |m.recoveryBuffer| then
      Reaction(m.(recoveryBuffer := m.recoveryBuffer[..i] + m.recoveryBuffer[i + 1..]), NoEffect,
               Continue(a.(phase := Reconciling(m.recoveryBuffer[i], CurrentToken(m)))))
    else
      Reaction(m.(recoveryBuffer := [], recoveryActive := false, reconnectRecoveryFromMs := None, emptyReconciliation := None),
               NoEffect, Continue(a.(phase := Draining(SortByMinute(m.recoveryBuffer)))))
  }

  function SortByMinute(items: seq<Envelope>): seq<Envelope> {
    if items == [] then [] else InsertByMinute(items[|items| - 1], SortByMinute(items[..|items| - 1]))
  }

  function InsertByMinute(e: Envelope, sorted: seq<Envelope>): seq<Envelope> {
    if sorted == [] then [e]
    else if sorted[|sorted| - 1].openTimeMs <= e.openTimeMs then sorted + [e]
    else InsertByMinute(e, sorted[..|sorted| - 1]) + [sorted[|sorted| - 1]]
  }

  function LateReconciled(m: Machine, a: Application, answer: ReadAnswer): Reaction
    requires a.phase.Reconciling?
  {
    var m1 := Verified(m, a.phase.late, a.phase.lateToken, answer);
    if !TokenValid(m1, a.token, REST_RECOVERY) || m1.truthFault != NONE then Ended(m1) else Reconcile(m1, a)
  }

  function DrainBuffered(m: Machine, a: Application, now: int, cfg: Config): Reaction
    requires a.phase.Draining?
  {
    var items := a.phase.items;
    if items == [] || !TokenValid(m, a.token, REST_RECOVERY) then Ended(m)
    else if m.generationId.Some? && items[0].generationId < m.generationId.value then
      Reaction(m, NoEffect, Continue(a.(phase := Draining(items[1..]))))
    else
      var (m1, effect) := HandleEnvelope(m, items[0], now, cfg);
      match effect
      case VerifyHistorical(late, lateToken) =>
        Reaction(m1, NoEffect, Continue(a.(phase := DrainVerifying(late, lateToken, items[1..]))))
      case _ => Reaction(m1, effect, Continue(a.(phase := Draining(items[1..]))))
  }

  // ----------------------------------------------------------------- stopping

  function Stop(m: Machine): Machine {
    Forget(ClearAllPending(m.(stopped := true, canonicalEpoch := m.canonicalEpoch + 1, recoveryEpoch := m.recoveryEpoch + 1)))
  }

  // ------------------------------------------------------------------ stimuli

  datatype Stimulus =
    | Packet(envelope: Envelope, now: int)
    | GraceTimer(timerId: nat, now: int)
    | CommitAnswered(acknowledged: bool)
    | CommitCleanup(now: int)
    | RecoveryEntered
    | RecoveryFaulted(fault: TruthFault, recoveryEpoch: int)
    | Reconnected(newGeneration: int)
    | HandoffAwaited(result: EmptyReconciliation)
    | HistoricalRead(late: Envelope, token: Token, answer: ReadAnswer)
    | ApplicationResumed(application: Application, answer: ReadAnswer, now: int)
    | Stopped

  /** A resumed application continues from the await it is suspended at; one that
      is settling may only be resumed once all its awaiters have resolved. */
  ghost predicate Enabled(m: Machine, s: Stimulus) {
    s.ApplicationResumed? && s.application.phase.Settling? ==> s.application.phase.awaiting !! m.waiters.Keys
  }

  ghost function Resume(m: Machine, a: Application, answer: ReadAnswer, now: int, cfg: Config): Reaction {
    match a.phase
    case Enqueuing(_, _) => EnqueueRecovered(m, a, now)
    case CheckingOverlap(_, _, _) => OverlapChecked(m, a, answer)
    case Settling(_) => BatchSettled(m, a)
    case Reconciling(_, _) => LateReconciled(m, a, answer)
    case Draining(_) => DrainBuffered(m, a, now, cfg)
    case DrainVerifying(late, lateToken, items) =>
      Reaction(Verified(m, late, lateToken, answer), NoEffect, Continue(a.(phase := Draining(items))))
  }

  ghost function React(m: Machine, s: Stimulus, cfg: Config): Reaction {
    match s
    case Packet(e, now) => (var (m1, effect) := HandleEnvelope(m, e, now, cfg); Reaction(m1, effect, Finished))
    case GraceTimer(id, now) => Ended(GraceElapsed(m, id, now))
    case CommitAnswered(ok) => Ended(CommitSettled(m, ok))
    case CommitCleanup(now) => Ended(CommitFinally(m, now))
    case RecoveryEntered => Ended(EnterRecovery(m))
    case RecoveryFaulted(fault, epoch) => Ended(LatchRecoveryFault(m, fault, epoch))
    case Reconnected(g) => Ended(ReconnectBarrier(m, g))
    case HandoffAwaited(result) => Ended(AwaitReconnectHandoff(m, result))
    case HistoricalRead(e, token, answer) => Ended(Verified(m, e, token, answer))
    case ApplicationResumed(a, answer, now) => Resume(m, a, answer, now, cfg)
    case Stopped => Ended(Stop(m))
  }
}
