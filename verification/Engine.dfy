/** Model of src/market-data/canonical-engine.ts, with the write barrier of
    src/market-data/pair-persistence-coordinator.ts: the engine as a transition
    system over everything that concerns one pair.

    A step is one uninterrupted piece of the source's asynchronous code. Steps may
    be taken in any order the awaits allow, so a run of the system is any
    interleaving of packets, timers, writes, recoveries, initialisations and
    stop/start cycles, of every engine run at once. */
module Engine {
  import opened Common
  import opened WorkingCandle
  import opened PairState
  import opened PairStateTheorems

  // ------------------------------------------------------------ vocabulary

  datatype Outcome = INSERTED | ALREADY_IDENTICAL | THROWN

  /** How far one call of `onFinalizeCandle` has come. */
  datatype Stage =
    | Queued                                          // behind the pair's previous write
    | Running(landed: bool)                           // physically executing; the row may already be there
    | Resolved                                        // the write has settled, the callback has not resumed
    | Notifying(recipients: seq<nat>, dispatchRun: nat) // the closed-candle event is being dispatched
    | Answered(ok: bool)                              // the callback has returned or thrown
    | Consumed                                        // the commit has resumed

  datatype Write = Write(machine: nat, candidate: Candidate, candle: Candle, outcome: Option<Outcome>, stage: Stage)

  /** A state machine together with the run that installed it. */
  datatype Instance = Instance(runId: nat, machine: Machine)

  datatype AttemptStage =
    | AwaitingBarrier(tail: nat)                            // until the first `tail` writes have settled
    | Reading(failed: bool)                                 // the baseline is being read
    | BaselineRead(failed: bool, baseline: Option<int>)
    | Over

  /** One `#createPairStateMachine` call and the ownership it captured. */
  datatype Attempt = Attempt(runId: nat, streamRevision: nat, generationId: Option<int>, pairRevision: nat, stage: AttemptStage)

  datatype Progress = Fetching | Applying(application: Application) | Closed

  datatype Recovery = Recovery(machine: nat, runId: nat, epoch: int, fromMs: int, toMs: int, progress: Progress)

  datatype Lookup = Lookup(machine: nat, late: Envelope, token: Token)

  /** A packet waiting for its pair to be initialised. */
  datatype Dispatch = Dispatch(runId: nat, generationId: int, streamRevision: nat, envelope: Envelope)

  datatype Event = Event(openTimeMs: int, runId: nat, machine: nat)

  datatype Delivery = Delivery(subscriber: nat, openTimeMs: int, eventRun: nat, runAtDelivery: nat)

  datatype World = World(
    pair: string,
    runId: nat,
    isStopped: bool,
    streamGeneration: Option<int>,
    streamRevision: nat,
    reconnectGeneration: Option<int>,
    pairRevision: nat,
    machines: seq<Instance>,
    installed: Option<nat>,
    attempts: seq<Attempt>,
    writes: seq<Write>,
    store: map<int, Candle>,
    recoveries: seq<Recovery>,
    lookups: seq<Lookup>,
    dispatches: seq<Dispatch>,
    subscribers: seq<nat>,
    events: seq<Event>,
    deliveries: seq<Delivery>)

  /** A freshly constructed engine over an existing store. */
  function Start(pair: string, store: map<int, Candle>): World {
    World(pair, 1, false, None, 0, None, 0, [], None, [], [], store, [], [], [], [], [], [])
  }

  ghost predicate WellFormed(w: World) {
    && (w.installed.Some? ==> w.installed.value < |w.machines|)
    && (forall k :: 0 <= k < |w.writes| ==> w.writes[k].machine < |w.machines|)
    && (forall k :: 0 <= k < |w.recoveries| ==> w.recoveries[k].machine < |w.machines|)
    && (forall k :: 0 <= k < |w.lookups| ==> w.lookups[k].machine < |w.machines|)
  }

  // ------------------------------------------------- machines in the engine

  /** The machine's new state, and the write it hands to the coordinator if it starts one. */
  ghost function Absorb(w: World, i: nat, m: Machine): World
    requires i < |w.machines|
  {
    var w1 := w.(machines := w.machines[i := w.machines[i].(machine := m)]);
    if StartsWrite(w.machines[i].machine, m)
    then w1.(writes := w.writes + [Write(i, m.flight.value.candidate, m.flight.value.candle, None, Queued)])
    else w1
  }

  /** `executeRecovery` up to the REST request. */
  ghost function ExecuteRecovery(w: World, fromMs: int, toMs: int, epoch: int): World
    requires w.installed.Some? ==> w.installed.value < |w.machines|
  {
    if w.installed.None? || w.isStopped || w.machines[w.installed.value].machine.recoveryEpoch != epoch then w
    else w.(recoveries := w.recoveries + [Recovery(w.installed.value, w.runId, epoch, fromMs, toMs, Fetching)])
  }

  ghost function Perform(w: World, i: nat, effect: Effect): World
    requires w.installed.Some? ==> w.installed.value < |w.machines|
  {
    match effect
    case NoEffect => w
    case RequestRecovery(fromMs, toMs, epoch) => ExecuteRecovery(w, fromMs, toMs, epoch)
    case VerifyHistorical(late, token) => w.(lookups := w.lookups + [Lookup(i, late, token)])
  }

  ghost function Touch(w: World, i: nat, s: Stimulus, cfg: Config): (w': World)
    requires WellFormed(w) && i < |w.machines|
    ensures WellFormed(w') && |w'.machines| == |w.machines| && w'.installed == w.installed
    ensures |w'.recoveries| >= |w.recoveries| && w'.events == w.events
  {
    hide React;
    var r := React(w.machines[i].machine, s, cfg);
    Perform(Absorb(w, i, r.machine), i, r.effect)
  }

  // --------------------------------------------------------- stream handling

  /** `#reconcileReconnect` for the installed machine. */
  ghost function Reconciled(w: World, i: nat, now: int, cfg: Config): (w': World)
    requires WellFormed(w) && i < |w.machines|
    ensures WellFormed(w')
    ensures w'.events == w.events
  {
    hide Touch;
    var m := w.machines[i].machine;
    var latestClosed := now / MINUTE_MS * MINUTE_MS - MINUTE_MS;
    if m.reconnectRecoveryFromMs.Some? && m.reconnectRecoveryFromMs.value <= latestClosed
    then ExecuteRecovery(w, m.reconnectRecoveryFromMs.value, latestClosed, m.recoveryEpoch)
    else Touch(w, i, HandoffAwaited(if m.latest.None? then NO_BASELINE else NOTHING_MISSING), cfg)
  }

  /** The reconnect barrier of generation `g`. `stops` says that a subscriber stopped
      the engine while the barrier's own event was being dispatched. */
  ghost function RaiseBarrier(w: World, g: int, stops: bool, now: int, cfg: Config): (w': World)
    requires WellFormed(w)
    ensures WellFormed(w')
    ensures w'.events == w.events
  {
    hide Touch, Reconciled;
    if w.installed.None? then w
    else
      var w1 := Touch(w, w.installed.value, Reconnected(g), cfg);
      if stops then StopEngine(w1, cfg) else Reconciled(w1, w.installed.value, now, cfg)
  }

  predicate NewGeneration(w: World, g: int) {
    w.streamGeneration.None? || g > w.streamGeneration.value
  }

  /** A new generation, and a new barrier, each supersede the initialisations in progress. */
  function Retuned(w: World, g: int, barrier: bool): World {
    w.(streamGeneration := if NewGeneration(w, g) then Some(g) else w.streamGeneration,
       streamRevision := if NewGeneration(w, g) || barrier then w.streamRevision + 1 else w.streamRevision,
       reconnectGeneration := if barrier then Some(g) else w.reconnectGeneration)
  }

  /** The generation bookkeeping that every envelope goes through first; `None` if the envelope is dropped. */
  ghost function ObserveGeneration(w: World, g: int, recoveryRequired: bool, stops: bool, now: int, cfg: Config)
    : (r: Option<World>)
    requires WellFormed(w)
    ensures r.Some? ==> WellFormed(r.value)
    ensures r.Some? ==> r.value.events == w.events
  {
    hide RaiseBarrier;
    if w.isStopped || !SafeInteger(g) || g < 1 || (w.streamGeneration.Some? && g < w.streamGeneration.value) then None
    else
      var needsBarrier := recoveryRequired || (NewGeneration(w, g) && w.streamGeneration.Some?);
      if !needsBarrier || w.reconnectGeneration == Some(g) then Some(Retuned(w, g, false))
      else Some(RaiseBarrier(Retuned(w, g, true), g, stops, now, cfg))
  }

  /** A candle packet: to the installed machine, or to wait for initialisation. */
  ghost function DispatchPacket(w: World, e: Envelope, now: int, cfg: Config): (w': World)
    requires WellFormed(w)
    ensures w'.events == w.events
  {
    if w.installed.Some? then Touch(w, w.installed.value, Packet(e, now), cfg)
    else
      var w1 := BeginAttempt(w);
      w1.(dispatches := w.dispatches + [Dispatch(w.runId, e.generationId, w.streamRevision, e)])
  }

  // ---------------------------------------------------------- initialisation

  predicate Tracked(w: World, a: Attempt) {
    !a.stage.Over? && a.runId == w.runId && a.streamRevision == w.streamRevision && a.pairRevision == w.pairRevision
  }

  /** `initializePair`: join the attempt in flight, or begin one. */
  ghost function BeginAttempt(w: World): World {
    if w.installed.Some? || exists k :: 0 <= k < |w.attempts| && Tracked(w, w.attempts[k]) then w
    else
      w.(pairRevision := w.pairRevision + 1,
         attempts := w.attempts +
                     [Attempt(w.runId, w.streamRevision, w.streamGeneration, w.pairRevision + 1, AwaitingBarrier(|w.writes|))])
  }

  predicate Owns(w: World, a: Attempt) {
    && a.runId == w.runId && a.streamRevision == w.streamRevision
    && a.generationId == w.streamGeneration && a.pairRevision == w.pairRevision
  }

  function WithAttempt(w: World, k: nat, stage: AttemptStage): World
    requires k < |w.attempts|
  {
    w.(attempts := w.attempts[k := w.attempts[k].(stage := stage)])
  }

  predicate SettledUpTo(writes: seq<Write>, tail: nat) {
    tail <= |writes| && (tail > 0 ==> writes[tail - 1].outcome.Some?)
  }

  ghost function LatestStored(store: map<int, Candle>): Option<int> {
    if store.Keys == {} then None else Some(Greatest(store.Keys))
  }

  ghost function Greatest(s: set<int>): (greatest: int)
    requires s != {}
    ensures greatest in s && forall x <- s :: x <= greatest
  {
    var mirrored := set x <- s :: -x;
    assert -Element(s) in mirrored;
    assert forall x <- s :: -x in mirrored;
    -Least(mirrored)
  }

  /** The machine an owning attempt constructs. */
  ghost function Constructed(w: World, failed: bool, baseline: Option<int>): Machine {
    var m := NewMachine(w.pair, baseline);
    if failed then LatchRecoveryFault(m, PERSISTENCE_FAILURE, m.recoveryEpoch) else m
  }

  /** An owning attempt puts its machine into service. */
  ghost function Installed(w: World, k: nat): World
    requires k < |w.attempts| && w.attempts[k].stage.BaselineRead?
  {
    var a := w.attempts[k];
    var m := Constructed(w, a.stage.failed, a.stage.baseline).(generationId := a.generationId);
    WithAttempt(w, k, Over).(machines := w.machines + [Instance(w.runId, m)], installed := Some(|w.machines|))
  }

  ghost function Install(w: World, k: nat, now: int, cfg: Config): (w': World)
    requires WellFormed(w) && k < |w.attempts| && w.attempts[k].stage.BaselineRead?
    ensures WellFormed(w')
    ensures w'.events == w.events
  {
    hide Touch, Reconciled;
    var a := w.attempts[k];
    var i := |w.machines|;
    if !Owns(w, a) then WithAttempt(w, k, Over)
    else if a.generationId.None? || w.reconnectGeneration != a.generationId then Installed(w, k)
    else Reconciled(Touch(Installed(w, k), i, Reconnected(a.generationId.value), cfg), i, now, cfg)
  }

  // ------------------------------------------------------------- stop, start

  ghost function StopEngine(w: World, cfg: Config): World
    requires w.installed.Some? ==> w.installed.value < |w.machines|
  {
    if w.isStopped then w
    else
      var w1 := w.(isStopped := true, runId := w.runId + 1, streamGeneration := None, reconnectGeneration := None,
                   streamRevision := w.streamRevision + 1, installed := None, subscribers := []);
      if w.installed.None? then w1
      else
        var i := w.installed.value;
        w1.(machines := w.machines[i := w.machines[i].(machine := Stop(w.machines[i].machine))])
  }

  // ---------------------------------------------------------------- recovery

  datatype RestReply = RestFailed | Records(records: seq<Candle>)

  function CoverageMap(records: seq<Candle>): map<int, Candle> {
    if records == [] then map[]
    else CoverageMap(records[..|records| - 1])[records[|records| - 1].openTimeMs := records[|records| - 1]]
  }

  /** The verified batch for `[t, toMs]`, or `None` if a minute is missing or cannot be a final candle. */
  function Batch(coverage: map<int, Candle>, t: int, toMs: int, now: int): Option<seq<Candle>>
    decreases toMs - t
  {
    if t > toMs then Some([])
    else if t !in coverage || coverage[t].pair == "" || !CandleConstructible(t, coverage[t].values, now) then None
    else
      var rest := Batch(coverage, t + MINUTE_MS, toMs, now);
      if rest.None? then None else Some([coverage[t]] + rest.value)
  }

  predicate Authoritative(w: World, r: Recovery)
    requires r.machine < |w.machines|
  {
    r.runId == w.runId && w.installed == Some(r.machine) && w.machines[r.machine].machine.recoveryEpoch == r.epoch
  }

  ghost function WithProgress(w: World, k: nat, p: Progress): World
    requires k < |w.recoveries|
  {
    w.(recoveries := w.recoveries[k := w.recoveries[k].(progress := p)])
  }

  /** Fail closed, if the recovery still has a say. */
  ghost function GiveUp(w: World, k: nat, cfg: Config): (w': World)
    requires WellFormed(w) && k < |w.recoveries|
    ensures w'.events == w.events
  {
    var r := w.recoveries[k];
    if Authoritative(w, r)
    then Touch(WithProgress(w, k, Closed), r.machine, RecoveryFaulted(RECOVERY_INCOMPLETE, r.epoch), cfg)
    else WithProgress(w, k, Closed)
  }

  ghost function RestAnswered(w: World, k: nat, reply: RestReply, now: int, cfg: Config): (w': World)
    requires WellFormed(w) && k < |w.recoveries|
    ensures w'.events == w.events
  {
    var r := w.recoveries[k];
    if !Authoritative(w, r) then WithProgress(w, k, Closed)
    else if reply.RestFailed? then GiveUp(w, k, cfg)
    else
      var batch := Batch(CoverageMap(reply.records), r.fromMs, r.toMs, now);
      if batch.None? then GiveUp(w, k, cfg)
      else match BeginApplication(w.machines[r.machine].machine, batch.value, r.epoch)
        case Continue(application) => WithProgress(w, k, Applying(application))
        case _ => WithProgress(w, k, Closed)
  }

  ghost function Advance(w: World, k: nat, next: PairState.Next, cfg: Config): (w': World)
    requires WellFormed(w) && k < |w.recoveries|
    ensures w'.events == w.events
  {
    match next
    case Finished => WithProgress(w, k, Closed)
    case Continue(application) => WithProgress(w, k, Applying(application))
    case Threw => GiveUp(w, k, cfg)
  }

  ghost function ApplicationResumes(w: World, k: nat, answer: ReadAnswer, now: int, cfg: Config): (w': World)
    requires WellFormed(w) && k < |w.recoveries| && w.recoveries[k].progress.Applying?
    ensures w'.events == w.events
  {
    hide Touch, React;
    var r := w.recoveries[k];
    var s := ApplicationResumed(r.progress.application, answer, now);
    Advance(Touch(w, r.machine, s, cfg), k, React(w.machines[r.machine].machine, s, cfg).next, cfg)
  }

  // ------------------------------------------------------- the write barrier

  function WithWrite(w: World, k: nat, x: Write): World
    requires k < |w.writes|
  {
    w.(writes := w.writes[k := x])
  }

  /** The row of write `k` reaches the database. */
  function Land(w: World, k: nat): World
    requires k < |w.writes|
  {
    WithWrite(w, k, w.writes[k].(stage := Running(true))).(
      store := w.store[w.writes[k].candle.openTimeMs := w.writes[k].candle])
  }

  /** The callback of a finished commit resumes: only the current run's installed machine may publish. */
  ghost function CallbackResumes(w: World, k: nat): World
    requires WellFormed(w) && k < |w.writes| && w.writes[k].outcome.Some?
  {
    var x := w.writes[k];
    var m := w.machines[x.machine].machine;
    if x.outcome == Some(THROWN) then WithWrite(w, k, x.(stage := Answered(false)))
    else if w.machines[x.machine].runId != w.runId || w.installed != Some(x.machine)
            || x.candidate.token.canonicalEpoch != m.canonicalEpoch
            || (x.candidate.origin == REST_RECOVERY && x.candidate.token.recoveryEpoch != m.recoveryEpoch)
            || x.outcome != Some(INSERTED)
    then WithWrite(w, k, x.(stage := Answered(true)))
    else
      WithWrite(w, k, x.(stage := Notifying(w.subscribers, w.runId))).(
        events := w.events + [Event(x.candle.openTimeMs, w.runId, x.machine)])
  }

  /** One turn of the dispatch loop: deliver to the next recipient, unless the run has ended meanwhile. */
  function DispatchTurn(w: World, k: nat): World
    requires k < |w.writes| && w.writes[k].stage.Notifying?
  {
    var x := w.writes[k];
    var Notifying(recipients, run) := x.stage;
    if recipients == [] || w.runId != run then WithWrite(w, k, x.(stage := Answered(true)))
    else
      WithWrite(w, k, x.(stage := Notifying(recipients[1..], run))).(
        deliveries := w.deliveries + [Delivery(recipients[0], x.candle.openTimeMs, run, w.runId)])
  }

  // -------------------------------------------------------------------- steps

  datatype Step =
    | EnvelopeArrives(generation: int, recoveryRequired: bool, packet: Option<Envelope>, stops: bool, now: int)
    | PairInitialised
    | BarrierPassed(attempt: nat)
    | BaselineFetched(attempt: nat, ok: bool)
    | AttemptResumes(attempt: nat, now: int)
    | DispatchResumes(dispatch: nat, now: int)
    | TimerFires(machine: nat, timerId: nat, now: int)
    | WriteStarts(write: nat)
    | WriteLands(write: nat)
    | WriteSettles(write: nat, outcome: Outcome)
    | WriteCallback(write: nat)
    | WriteDispatch(write: nat)
    | CommitResumes(write: nat)
    | CommitFinishes(machine: nat, now: int)
    | RecoveryRequested(fromMs: int, toMs: int)
    | RestReplies(recovery: nat, reply: RestReply, now: int)
    | RecoveryContinues(recovery: nat, answer: ReadAnswer, now: int)
    | HistoricalAnswered(lookup: nat, answer: ReadAnswer)
    | EngineStops
    | EngineStarts
    | Subscribed(subscriber: nat)
    | Unsubscribed(subscriber: nat)

  /** The awaited thing has happened. */
  ghost predicate CanTake(w: World, s: Step) {
    match s
    case EnvelopeArrives(g, recoveryRequired, packet, _, _) =>
      packet.Some? ==> !recoveryRequired && packet.value.pair == w.pair && packet.value.generationId == g
    case BarrierPassed(k) =>
      k < |w.attempts| && w.attempts[k].stage.AwaitingBarrier? && SettledUpTo(w.writes, w.attempts[k].stage.tail)
    case BaselineFetched(k, _) => k < |w.attempts| && w.attempts[k].stage.Reading?
    case AttemptResumes(k, _) => k < |w.attempts| && w.attempts[k].stage.BaselineRead?
    case DispatchResumes(k, _) => k < |w.dispatches|
    case TimerFires(i, _, _) => i < |w.machines|
    case WriteStarts(k) =>
      k < |w.writes| && w.writes[k].stage == Queued && SettledUpTo(w.writes, k)
    case WriteLands(k) =>
      k < |w.writes| && w.writes[k].stage == Running(false) && w.writes[k].candle.openTimeMs !in w.store
    case WriteSettles(k, outcome) =>
      && k < |w.writes| && w.writes[k].stage.Running?
      && (outcome == INSERTED ==> w.writes[k].stage.landed)
      && (outcome == ALREADY_IDENTICAL ==>
            && !w.writes[k].stage.landed && w.writes[k].candle.openTimeMs in w.store
            && Compatible(w.store[w.writes[k].candle.openTimeMs], w.writes[k].candle))
    case WriteCallback(k) => k < |w.writes| && w.writes[k].stage == Resolved && w.writes[k].outcome.Some?
    case WriteDispatch(k) => k < |w.writes| && w.writes[k].stage.Notifying?
    case CommitResumes(k) => k < |w.writes| && w.writes[k].stage.Answered?
    case CommitFinishes(i, _) => i < |w.machines|
    case RestReplies(k, _, _) => k < |w.recoveries| && w.recoveries[k].progress.Fetching?
    case RecoveryContinues(k, answer, now) =>
      && k < |w.recoveries| && w.recoveries[k].progress.Applying? && w.recoveries[k].machine < |w.machines|
      && Enabled(w.machines[w.recoveries[k].machine].machine, ApplicationResumed(w.recoveries[k].progress.application, answer, now))
    case HistoricalAnswered(k, _) => k < |w.lookups|
    case Subscribed(id) => id !in w.subscribers
    case _ => true
  }

  ghost function Take(w: World, s: Step, cfg: Config): World
    requires WellFormed(w) && CanTake(w, s)
  {
    match s
    case EnvelopeArrives(g, recoveryRequired, packet, stops, now) => EnvelopeHandled(w, g, recoveryRequired, packet, stops, now, cfg)
    case PairInitialised => BeginAttempt(w)
    case BarrierPassed(k) =>
      WithAttempt(w, k, if Owns(w, w.attempts[k]) then Reading(LastFailed(w.writes, w.attempts[k].stage.tail)) else Over)
    case BaselineFetched(k, ok) =>
      WithAttempt(w, k, if ok then BaselineRead(w.attempts[k].stage.failed, LatestStored(w.store)) else Over)
    case AttemptResumes(k, now) => Install(w, k, now, cfg)
    case DispatchResumes(k, now) => ResumeDispatch(w, k, now, cfg)
    case TimerFires(i, id, now) => Touch(w, i, GraceTimer(id, now), cfg)
    case WriteStarts(k) => WithWrite(w, k, w.writes[k].(stage := Running(false)))
    case WriteLands(k) => Land(w, k)
    case WriteSettles(k, outcome) => WithWrite(w, k, w.writes[k].(stage := Resolved, outcome := Some(outcome)))
    case WriteCallback(k) => CallbackResumes(w, k)
    case WriteDispatch(k) => DispatchTurn(w, k)
    case CommitResumes(k) =>
      Touch(WithWrite(w, k, w.writes[k].(stage := Consumed)), w.writes[k].machine, CommitAnswered(w.writes[k].stage.ok), cfg)
    case CommitFinishes(i, now) => Touch(w, i, CommitCleanup(now), cfg)
    case RecoveryRequested(fromMs, toMs) => RequestRecoveryNow(w, fromMs, toMs, cfg)
    case RestReplies(k, reply, now) => RestAnswered(w, k, reply, now, cfg)
    case RecoveryContinues(k, answer, now) => ApplicationResumes(w, k, answer, now, cfg)
    case HistoricalAnswered(k, answer) =>
      var r := w.lookups[k];
      Touch(w.(lookups := w.lookups[..k] + w.lookups[k + 1..]), r.machine, HistoricalRead(r.late, r.token, answer), cfg)
    case EngineStops => StopEngine(w, cfg)
    case EngineStarts => w.(isStopped := false)
    case Subscribed(id) => w.(subscribers := w.subscribers + [id])
    case Unsubscribed(id) => w.(subscribers := Without(w.subscribers, id))
  }

  function Without(xs: seq<nat>, x: nat): seq<nat> {
    if xs == [] then []
    else if xs[|xs| - 1] == x then Without(xs[..|xs| - 1], x)
    else Without(xs[..|xs| - 1], x) + [xs[|xs| - 1]]
  }

  predicate LastFailed(writes: seq<Write>, tail: nat) {
    0 < tail <= |writes| && writes[tail - 1].outcome == Some(THROWN)
  }

  /** `handleStreamEnvelope` of the engine, up to its first await. */
  ghost function EnvelopeHandled(w: World, g: int, recoveryRequired: bool, packet: Option<Envelope>, stops: bool, now: int, cfg: Config)
    : (w': World)
    requires WellFormed(w)
    ensures w'.events == w.events
  {
    hide WellFormed, ObserveGeneration, DispatchPacket;
    var observed := ObserveGeneration(w, g, recoveryRequired, stops, now, cfg);
    if observed.None? then w
    else if packet.None? || observed.value.runId != w.runId then observed.value
    else
      DispatchPacket(observed.value, packet.value, now, cfg)
  }

  /** A packet that waited for initialisation is dropped unless nothing has superseded it. */
  ghost function ResumeDispatch(w: World, k: nat, now: int, cfg: Config): (w': World)
    requires WellFormed(w) && k < |w.dispatches|
    ensures w'.events == w.events
  {
    var d := w.dispatches[k];
    var w1 := w.(dispatches := w.dispatches[..k] + w.dispatches[k + 1..]);
    if d.runId != w.runId || Some(d.generationId) != w.streamGeneration || d.streamRevision != w.streamRevision || w.installed.None?
    then w1
    else Touch(w1, w.installed.value, Packet(d.envelope, now), cfg)
  }

  /** The public `executeRecovery` without an epoch: it opens a new recovery. */
  ghost function RequestRecoveryNow(w: World, fromMs: int, toMs: int, cfg: Config): (w': World)
    requires WellFormed(w)
    ensures w'.events == w.events
  {
    if w.installed.None? || w.isStopped then w
    else
      var i := w.installed.value;
      var w1 := Touch(w, i, RecoveryEntered, cfg);
      ExecuteRecovery(w1, fromMs, toMs, w1.machines[i].machine.recoveryEpoch)
  }
}
