/** What one reaction of the pair state machine keeps, whatever the stimulus. */
module PairStateTheorems {
  import opened Common
  import opened WorkingCandle
  import opened PairState

  /** Queued candidates are filed under their own minute, recovered ones carry their
      own candle, and the candle being persisted is the successor of the watermark. */
  ghost predicate Invariant(m: Machine) {
    && Filed(m.working)
    && (forall t <- m.readyToCommit :: CandidateFits(m.readyToCommit[t], t, m.pair))
    && (Writing(m) ==> FlightFits(m.flight.value, m.latest, m.pair))
  }

  ghost predicate Filed(w: Manager) {
    forall k <- w.working :: KeyOf(w.working[k]) == k
  }

  ghost predicate CandidateFits(c: Candidate, t: int, pair: string) {
    && c.openTimeMs == t
    && (c.origin == REST_RECOVERY ==> c.prebuilt.Some? && c.prebuilt.value.openTimeMs == t && c.prebuilt.value.pair == pair)
  }

  ghost predicate FlightFits(f: Flight, latest: Option<int>, pair: string)
    requires f.Persisting?
  {
    && f.candle.openTimeMs == f.candidate.openTimeMs && f.candle.pair == pair
    && Succeeds(f.candle.openTimeMs, latest)
  }

  predicate Succeeds(t: int, latest: Option<int>) {
    latest.Some? ==> t == latest.value + MINUTE_MS
  }

  /** A write has been handed to the persistence layer and has not been answered. */
  predicate Writing(m: Machine) {
    m.flight.Some? && m.flight.value.Persisting?
  }

  predicate StartsWrite(m: Machine, m': Machine) {
    Writing(m') && !Writing(m)
  }

  predicate Absorbing(f: TruthFault) {
    f != NONE && f != RECOVERY_INCOMPLETE
  }

  /** A fault may appear and may become more severe, but no worse fault is forgotten. */
  predicate FaultGrows(before: TruthFault, after: TruthFault) {
    && (Absorbing(before) ==> Absorbing(after))
    && (before == RECOVERY_INCOMPLETE ==> after != NONE)
  }

  predicate GenerationGrows(before: Option<int>, after: Option<int>) {
    before.Some? ==> after.Some? && before.value <= after.value
  }

  predicate EpochsGrow(m: Machine, m': Machine) {
    && m.canonicalEpoch <= m'.canonicalEpoch && m.recoveryEpoch <= m'.recoveryEpoch
    && GenerationGrows(m.generationId, m'.generationId)
    && (m.stopped ==> m'.stopped)
  }

  /** A change that neither starts, answers nor finishes a commit. */
  ghost predicate Quiet(m: Machine, m': Machine) {
    && m'.pair == m.pair && m'.flight == m.flight && m'.latest == m.latest
    && (forall t <- m'.readyToCommit :: t in m.readyToCommit && m'.readyToCommit[t] == m.readyToCommit[t])
    && (Filed(m.working) ==> Filed(m'.working))
    && EpochsGrow(m, m')
    && FaultGrows(m.truthFault, m'.truthFault)
  }

  lemma {:induction false} QuietKeeps(m: Machine, m': Machine)
    requires Invariant(m) && Quiet(m, m')
    ensures Invariant(m')
  {
  }

  lemma {:induction false} QuietComposes(a: Machine, b: Machine, c: Machine)
    requires Quiet(a, b) && Quiet(b, c)
    ensures Quiet(a, c)
  {
  }

  // ------------------------------------------------------- quiet reactions

  lemma {:induction false} ClearingIsQuiet(m: Machine)
    ensures Quiet(m, ClearAllPending(m)) && ClearAllPending(m).readyToCommit == map[]
  {
  }

  lemma {:induction false} RefilingIsQuiet(m: Machine, w: Manager)
    requires Filed(m.working) ==> Filed(w)
    ensures Quiet(m, m.(working := w))
  {
  }

  /** A wholesale reset that follows `ClearAllPending`: forget the forming candles and the buffer. */
  lemma {:induction false} ForgettingIsQuiet(m: Machine)
    ensures Quiet(m, Forget(m)) && Forget(m).readyToCommit == m.readyToCommit
  {
  }

  lemma {:induction false} LatchingIsQuiet(m: Machine, fault: TruthFault)
    requires Absorbing(fault)
    ensures Quiet(m, LatchFatal(m, fault))
  {
    var m1 := m.(truthFault := fault);
    assert Quiet(m, m1);
    ClearingIsQuiet(m1);
    ForgettingIsQuiet(ClearAllPending(m1));
    hide Quiet, ClearAllPending, Forget;
    QuietComposes(m, m1, ClearAllPending(m1));
    QuietComposes(m, ClearAllPending(m1), LatchFatal(m, fault));
  }

  lemma {:induction false} EnteringIsQuiet(m: Machine)
    ensures Quiet(m, EnterRecovery(m))
  {
    var m1 := m.(recoveryEpoch := m.recoveryEpoch + 1, recoveryActive := true, emptyReconciliation := None);
    assert Quiet(m, m1);
    hide Quiet, ClearAllPending;
    ClearingIsQuiet(m1);
    QuietComposes(m, m1, ClearAllPending(m1));
  }

  lemma {:induction false} StoppingIsQuiet(m: Machine)
    ensures Quiet(m, Stop(m)) && Stop(m).readyToCommit == map[]
  {
    var m1 := m.(stopped := true, canonicalEpoch := m.canonicalEpoch + 1, recoveryEpoch := m.recoveryEpoch + 1);
    assert Quiet(m, m1);
    ClearingIsQuiet(m1);
    ForgettingIsQuiet(ClearAllPending(m1));
    hide Quiet, ClearAllPending, Forget;
    QuietComposes(m, m1, ClearAllPending(m1));
    QuietComposes(m, ClearAllPending(m1), Stop(m));
  }

  lemma {:induction false} BarrierIsQuiet(m: Machine, newGeneration: int)
    ensures Quiet(m, ReconnectBarrier(m, newGeneration))
  {
    QuietReflexive(m);
    var m1 := m.(reconnectRecoveryFromMs := ReconnectFrom(m), generationId := Some(newGeneration),
                 canonicalEpoch := m.canonicalEpoch + 1, recoveryEpoch := m.recoveryEpoch + 1);
    hide ReconnectFrom, Quiet, ClearAllPending, Forget;
    ResettingIsQuiet(m1);
    if m.generationId.Some? ==> newGeneration >= m.generationId.value {
      RetaggingIsQuiet(m, m1);
      QuietComposes(m, m1, Forget(ClearAllPending(m1)).(recoveryActive := true, emptyReconciliation := None));
    }
  }

  lemma {:induction false} ResettingIsQuiet(m: Machine)
    ensures Quiet(m, Forget(ClearAllPending(m)).(recoveryActive := true, emptyReconciliation := None))
  {
    hide Quiet, ClearAllPending, Forget;
    var m1 := ClearAllPending(m);
    ClearingIsQuiet(m);
    ForgettingIsQuiet(m1);
    RecoveryFlagsAreQuiet(Forget(m1));
    QuietComposes(m, m1, Forget(m1));
    QuietComposes(m, Forget(m1), Forget(m1).(recoveryActive := true, emptyReconciliation := None));
  }

  lemma {:induction false} RetaggingIsQuiet(m: Machine, m1: Machine)
    requires m1 == m.(reconnectRecoveryFromMs := m1.reconnectRecoveryFromMs, generationId := m1.generationId,
                      canonicalEpoch := m1.canonicalEpoch, recoveryEpoch := m1.recoveryEpoch)
    requires EpochsGrow(m, m1)
    ensures Quiet(m, m1)
  {
  }

  lemma {:induction false} EvidenceIsQuiet(m: Machine, w: Manager, fault: EvidenceFault)
    requires Filed(m.working) ==> Filed(w)
    ensures Quiet(m, LatchEvidence(m.(working := w), fault))
  {
    hide Quiet, LatchFatal;
    RefilingIsQuiet(m, w);
    LatchingIsQuiet(m.(working := w), CANONICAL_CONFLICT);
    LatchingIsQuiet(m.(working := w), BUFFER_OVERFLOW);
    QuietComposes(m, m.(working := w), LatchEvidence(m.(working := w), fault));
  }

  lemma {:induction false} RebufferingIsQuiet(m: Machine, buffer: seq<Envelope>)
    ensures Quiet(m, m.(recoveryBuffer := buffer))
  {
  }

  lemma {:induction false} ObservingRefiles(w: Manager, s: Snapshot)
    ensures Filed(w) ==> Filed(Observe(w, s).0)
  {
  }

  lemma {:induction false} BufferingIsQuiet(m: Machine, e: Envelope, cfg: Config)
    ensures Quiet(m, BufferEnvelope(m, e, cfg))
  {
    hide LatchFatal, LatchEvidence, Observe, Filed, Quiet, BufferIndex;
    var (w, fault) := Observe(m.working, SnapshotOf(e));
    var i := BufferIndex(m.recoveryBuffer, e.openTimeMs);
    var replaced := if i < |m.recoveryBuffer| then m.recoveryBuffer[i := e] else m.recoveryBuffer + [e];
    ObservingRefiles(m.working, SnapshotOf(e));
    RefilingThenLatching(m, w);
    RefilingThenBuffering(m, w, replaced);
    if fault.Some? {
      EvidenceIsQuiet(m, w, fault.value);
    }
  }

  lemma {:induction false} RefilingThenLatching(m: Machine, w: Manager)
    requires Filed(m.working) ==> Filed(w)
    ensures Quiet(m, LatchFatal(m.(working := w), CANONICAL_CONFLICT)) && Quiet(m, LatchFatal(m.(working := w), BUFFER_OVERFLOW))
  {
    hide Quiet, LatchFatal;
    EvidenceIsQuiet(m, w, CONFLICT);
    EvidenceIsQuiet(m, w, EVIDENCE_LIMIT);
  }

  lemma {:induction false} RefilingThenBuffering(m: Machine, w: Manager, buffer: seq<Envelope>)
    requires Filed(m.working) ==> Filed(w)
    ensures Quiet(m, m.(working := w)) && Quiet(m, m.(working := w, recoveryBuffer := buffer))
  {
    hide Quiet;
    RefilingIsQuiet(m, w);
    RebufferingIsQuiet(m.(working := w), buffer);
    QuietComposes(m, m.(working := w), m.(working := w, recoveryBuffer := buffer));
  }

  lemma {:induction false} WorkingIsQuiet(m: Machine, e: Envelope)
    ensures Quiet(m, ApplyWorking(m, e))
  {
    var (w, result) := Updated(m.working, SnapshotOf(e));
    assert Filed(m.working) ==> Filed(w);
    RefilingIsQuiet(m, w);
    hide Quiet, LatchEvidence, Updated, Filed;
    if result.FAULTED? {
      EvidenceIsQuiet(m, w, result.fault);
    }
  }

  lemma {:induction false} FaultingIsQuiet(m: Machine, fault: TruthFault, recoveryEpoch: int)
    ensures Quiet(m, LatchRecoveryFault(m, fault, recoveryEpoch))
  {
  }

  lemma {:induction false} AwaitingIsQuiet(m: Machine, result: EmptyReconciliation)
    ensures Quiet(m, AwaitReconnectHandoff(m, result))
  {
  }

  lemma {:induction false} VerifyingIsQuiet(m: Machine, e: Envelope, token: Token, answer: ReadAnswer)
    ensures Quiet(m, Verified(m, e, token, answer))
  {
  }

  lemma {:induction false} GapIsQuiet(m: Machine, e: Envelope, fromMs: int, cfg: Config)
    ensures Quiet(m, OpenGap(m, e, fromMs, cfg).0)
  {
    hide Quiet, EnterRecovery, BufferEnvelope;
    EnteringIsQuiet(m);
    BufferingIsQuiet(EnterRecovery(m), e, cfg);
    QuietComposes(m, EnterRecovery(m), BufferEnvelope(EnterRecovery(m), e, cfg));
  }

  lemma {:induction false} SchedulingIsQuiet(m: Machine, openTimeMs: int, providerEventTimeMs: int)
    ensures Quiet(m, ScheduleFinalization(m, openTimeMs, providerEventTimeMs))
  {
  }

  lemma {:induction false} LiveIsQuiet(m: Machine, e: Envelope, cfg: Config)
    ensures Quiet(m, AcceptLive(m, e, cfg).0)
  {
    QuietReflexive(m);
    hide Quiet, ApplyWorking, OpenGap, ScheduleFinalization;
    WorkingIsQuiet(m, e);
    var current := CurrentOpenTime(m.working, m.pair);
    if m.latest.Some? {
      GapIsQuiet(m, e, m.latest.value + MINUTE_MS, cfg);
    }
    if current.Some? {
      GapIsQuiet(m, e, current.value, cfg);
      var m1 := ScheduleFinalization(m, current.value, e.providerEventTimeMs);
      SchedulingIsQuiet(m, current.value, e.providerEventTimeMs);
      WorkingIsQuiet(m1, e);
      QuietComposes(m, m1, ApplyWorking(m1, e));
    }
  }

  lemma {:induction false} QuietReflexive(m: Machine)
    ensures Quiet(m, m)
  {
  }

  lemma {:induction false} RecoveryFlagsAreQuiet(m: Machine)
    ensures Quiet(m, m.(emptyReconciliation := None))
    ensures Quiet(m, m.(emptyReconciliation := None, reconnectRecoveryFromMs := None, recoveryActive := false))
    ensures Quiet(m, m.(recoveryActive := true, emptyReconciliation := None))
  {
  }

  lemma {:induction false} RecoveringIsQuiet(m: Machine, e: Envelope, now: int, cfg: Config)
    ensures Quiet(m, AcceptRecovering(m, e, now, cfg).0)
  {
    QuietReflexive(m);
    var m1 := m.(emptyReconciliation := None);
    var m2 := m.(emptyReconciliation := None, reconnectRecoveryFromMs := None, recoveryActive := false);
    RecoveryFlagsAreQuiet(m);
    hide Quiet, BufferEnvelope, AcceptLive;
    BufferingIsQuiet(m, e, cfg);
    BufferingIsQuiet(m1, e, cfg);
    LiveIsQuiet(m2, e, cfg);
    QuietComposes(m, m1, BufferEnvelope(m1, e, cfg));
    QuietComposes(m, m2, AcceptLive(m2, e, cfg).0);
  }

  lemma {:induction false} NewGenerationIsQuiet(m: Machine, generation: int)
    requires m.generationId.Some? ==> m.generationId.value <= generation
    ensures var m1 := m.(generationId := Some(generation)); Quiet(m, m1) && Quiet(m, m1.(truthFault := TIME_INVALID))
  {
  }

  lemma {:induction false} PacketIsQuiet(m: Machine, e: Envelope, now: int, cfg: Config)
    ensures Quiet(m, HandleEnvelope(m, e, now, cfg).0)
  {
    hide Quiet, AcceptRecovering, AcceptLive, TimeSafe;
    QuietReflexive(m);
    if !(m.stopped || e.pair != m.pair || (m.generationId.Some? && e.generationId < m.generationId.value)) {
      var m1 := m.(generationId := Some(e.generationId));
      NewGenerationIsQuiet(m, e.generationId);
      RecoveringIsQuiet(m1, e, now, cfg);
      LiveIsQuiet(m1, e, cfg);
      QuietComposes(m, m1, AcceptRecovering(m1, e, now, cfg).0);
      QuietComposes(m, m1, AcceptLive(m1, e, cfg).0);
    }
  }

  // ------------------------------------------------------------- the queue

  /** What draining the queue may do: start at most one commit, for the successor of the watermark. */
  ghost predicate Drained(m: Machine, m': Machine) {
    && m'.pair == m.pair && m'.latest == m.latest && m'.working == m.working && m'.recoveryActive == m.recoveryActive
    && m'.canonicalEpoch == m.canonicalEpoch && m'.recoveryEpoch == m.recoveryEpoch
    && m'.generationId == m.generationId && m'.stopped == m.stopped
    && FaultGrows(m.truthFault, m'.truthFault)
    && (forall t <- m'.readyToCommit :: t in m.readyToCommit && m'.readyToCommit[t] == m.readyToCommit[t])
    && (m.flight.Some? ==> m'.flight == m.flight)
    && (StartsWrite(m, m') ==> Licensed(m, m'.flight.value))
  }

  /** The licence every write needs: no other write pending, a valid token, no blocking
      fault, no active recovery unless it is recovery's own, and the successor minute. */
  ghost predicate Licensed(m: Machine, f: Flight)
    requires f.Persisting?
  {
    && !Writing(m) && !m.stopped
    && TokenValid(m, f.candidate.token, f.candidate.origin)
    && !FaultBlocks(m, f.candidate.origin)
    && (f.candidate.origin == LIVE_FINALIZATION ==> !m.recoveryActive)
    && FlightFits(f, m.latest, m.pair)
  }

  lemma {:induction false} DrainDrains(m: Machine, now: int)
    requires Invariant(m)
    ensures Drained(m, Drain(m, now)) && Invariant(Drain(m, now))
    decreases |m.readyToCommit|
  {
    if !m.stopped && m.flight.None? && m.readyToCommit != map[] {
      assert m.readyToCommit.Keys != {};
      var t := Least(m.readyToCommit.Keys);
      var c := m.readyToCommit[t];
      BlockedDrains(m);
      if FaultBlocks(m, c.origin) {
      } else if m.latest.Some? && t <= m.latest.value {
        var m1 := DropSuperseded(m, t);
        SupersededDrains(m, t, m1);
        DrainDrains(m1, now);
        hide Drained;
        DrainedComposes(m, m1, Drain(m1, now));
      } else if m.latest.Some? && t != m.latest.value + MINUTE_MS {
      } else {
        StartDrains(m, t, now);
      }
    }
  }

  function DropSuperseded(m: Machine, t: int): Machine {
    ResolveSettled(m.(readyToCommit := m.readyToCommit - {t}, pendingFinalizations := m.pendingFinalizations - {t}), t)
  }

  lemma {:induction false} BlockedDrains(m: Machine)
    requires Invariant(m)
    ensures Drained(m, m) && Drained(m, ResolveAllReady(m)) && Invariant(ResolveAllReady(m))
  {
  }

  lemma {:induction false} SupersededDrains(m: Machine, t: int, m1: Machine)
    requires Invariant(m) && m.flight.None? && m1 == DropSuperseded(m, t)
    ensures Drained(m, m1) && Invariant(m1) && m1.flight.None?
  {
  }

  lemma {:induction false} DrainedComposes(a: Machine, b: Machine, c: Machine)
    requires Drained(a, b) && Drained(b, c) && a.flight.None? && b.flight.None? && b.truthFault == a.truthFault
    ensures Drained(a, c)
  {
  }

  /** Starting a commit touches only the flight and the fault. */
  lemma {:induction false} StartTouches(m: Machine, c: Candidate, now: int)
    ensures var m' := StartCommit(m, c, now);
            && m' == m.(flight := m'.flight, truthFault := m'.truthFault)
            && m'.flight.Some? && m'.flight.value.candidate == c
            && FaultGrows(m.truthFault, m'.truthFault)
            && (Writing(m') ==> TokenValid(m, c.token, c.origin) && !FaultBlocks(m, c.origin))
            && (Writing(m') && c.origin == LIVE_FINALIZATION ==> !m.recoveryActive)
            && (Writing(m') && Filed(m.working) && CandidateFits(c, c.openTimeMs, m.pair) ==>
                  m'.flight.value.candle.openTimeMs == c.openTimeMs && m'.flight.value.candle.pair == m.pair)
  {
    hide DraftOf, TokenValid, FaultBlocks, Filed, CandidateFits;
    if DraftOf(m, c, now).Final? {
      DraftFits(m, c, now);
    }
  }

  /** What is written is the candidate's own candle, or built from the working snapshot of its minute. */
  lemma {:induction false} DraftFits(m: Machine, c: Candidate, now: int)
    requires DraftOf(m, c, now).Final?
    ensures TokenValid(m, c.token, c.origin) && !FaultBlocks(m, c.origin) && (c.origin == LIVE_FINALIZATION ==> !m.recoveryActive)
    ensures var candle := DraftOf(m, c, now).candle;
            Filed(m.working) && CandidateFits(c, c.openTimeMs, m.pair) ==> candle.openTimeMs == c.openTimeMs && candle.pair == m.pair
  {
    hide TokenValid, CandleConstructible, FaultBlocks;
  }

  lemma {:induction false} StartDrains(m: Machine, t: int, now: int)
    requires Invariant(m) && m.flight.None? && !m.stopped && t in m.readyToCommit && Succeeds(t, m.latest)
    ensures var m' := StartCommit(m.(readyToCommit := m.readyToCommit - {t}), m.readyToCommit[t], now);
            Drained(m, m') && Invariant(m')
  {
    var c := m.readyToCommit[t];
    var m1 := m.(readyToCommit := m.readyToCommit - {t});
    StartTouches(m1, c, now);
    hide StartCommit, Filed;
  }

  /** The candidate of a queue reaction, if it adds one. */
  lemma {:induction false} EnqueueDrains(m: Machine, c: Candidate, now: int)
    requires Invariant(m) && CandidateFits(c, c.openTimeMs, m.pair)
    ensures Invariant(Enqueue(m, c, now))
    ensures Drained(m.(readyToCommit := m.readyToCommit[c.openTimeMs := c]), Enqueue(m, c, now)) || Enqueue(m, c, now) == m
  {
    DrainDrains(m.(readyToCommit := m.readyToCommit[c.openTimeMs := c]), now);
  }

  // ----------------------------------------------------- one reaction at large

  /** The watermark moves only when the commit in flight is acknowledged while its
      token is still valid, and then to the very next minute. */
  ghost predicate WatermarkKept(m: Machine, s: Stimulus, m': Machine) {
    || m'.latest == m.latest
    || (&& s == CommitAnswered(true) && Writing(m)
        && var c := m.flight.value.candidate;
           && TokenValid(m, c.token, c.origin)
           && m'.latest == Some(c.openTimeMs) && Succeeds(c.openTimeMs, m.latest))
  }

  /** At most one write is pending; it ends only by being answered, and a new one needs its licence. */
  ghost predicate SingleFlight(m: Machine, s: Stimulus, m': Machine) {
    && (Writing(m) && !s.CommitAnswered? ==> m'.flight == m.flight)
    && (Writing(m) && s.CommitAnswered? ==> m'.flight == Some(Returned(m.flight.value.candidate)))
    && (StartsWrite(m, m') ==> Licensed(m, m'.flight.value))
  }

  /** Absorbing faults last and block every write; an incomplete recovery is forgiven only
      by an application of recovered candles whose own token is still valid. */
  ghost predicate FaultsKept(m: Machine, s: Stimulus, m': Machine) {
    && (Absorbing(m.truthFault) ==> Absorbing(m'.truthFault) && !StartsWrite(m, m'))
    && (m.truthFault == RECOVERY_INCOMPLETE && m'.truthFault == NONE ==>
          && s.ApplicationResumed? && s.application.phase.Settling?
          && s.application.phase.awaiting !! m.waiters.Keys
          && TokenValid(m, s.application.token, REST_RECOVERY))
  }

  ghost predicate Evolves(m: Machine, s: Stimulus, m': Machine) {
    && m'.pair == m.pair
    && EpochsGrow(m, m')
    && WatermarkKept(m, s, m')
    && SingleFlight(m, s, m')
    && FaultsKept(m, s, m')
  }

  /** The protocol's step theorem. */
  lemma {:induction false} ReactionEvolves(m: Machine, s: Stimulus, cfg: Config)
    requires Invariant(m) && Enabled(m, s)
    ensures Invariant(React(m, s, cfg).machine)
    ensures Evolves(m, s, React(m, s, cfg).machine)
  {
    hide Quiet, Evolves, Invariant, HandleEnvelope, GraceElapsed, CommitSettled, CommitFinally, EnterRecovery,
      LatchRecoveryFault, ReconnectBarrier, AwaitReconnectHandoff, Verified, Resume, Stop;
    match s
    case Packet(e, now) => PacketEvolves(m, e, now, cfg);
    case GraceTimer(id, now) => GraceEvolves(m, id, now);
    case CommitAnswered(ok) => AnswerEvolves(m, ok);
    case CommitCleanup(now) => CleanupEvolves(m, now);
    case RecoveryEntered => EnteringEvolves(m);
    case RecoveryFaulted(fault, epoch) => FaultingEvolves(m, fault, epoch);
    case Reconnected(g) => BarrierEvolves(m, g);
    case HandoffAwaited(result) => AwaitingEvolves(m, result);
    case HistoricalRead(e, token, answer) => VerifyingEvolves(m, e, token, answer);
    case ApplicationResumed(a, answer, now) => ResumeEvolves(m, a, answer, now, cfg);
    case Stopped => StoppingEvolves(m);
  }

  lemma {:induction false} QuietEvolves(m: Machine, s: Stimulus, m': Machine)
    requires Invariant(m) && Quiet(m, m') && !s.CommitAnswered?
    ensures Invariant(m') && Evolves(m, s, m')
  {
  }

  lemma {:induction false} PacketEvolves(m: Machine, e: Envelope, now: int, cfg: Config)
    requires Invariant(m)
    ensures var m' := HandleEnvelope(m, e, now, cfg).0; Invariant(m') && Evolves(m, Packet(e, now), m')
  {
    hide Quiet, Evolves, Invariant, HandleEnvelope;
    PacketIsQuiet(m, e, now, cfg);
    QuietEvolves(m, Packet(e, now), HandleEnvelope(m, e, now, cfg).0);
  }

  lemma {:induction false} EnteringEvolves(m: Machine)
    requires Invariant(m)
    ensures var m' := EnterRecovery(m); Invariant(m') && Evolves(m, RecoveryEntered, m')
  {
    hide Quiet, Evolves, Invariant, EnterRecovery;
    EnteringIsQuiet(m);
    QuietEvolves(m, RecoveryEntered, EnterRecovery(m));
  }

  lemma {:induction false} FaultingEvolves(m: Machine, fault: TruthFault, epoch: int)
    requires Invariant(m)
    ensures var m' := LatchRecoveryFault(m, fault, epoch); Invariant(m') && Evolves(m, RecoveryFaulted(fault, epoch), m')
  {
    hide Quiet, Evolves, Invariant, LatchRecoveryFault;
    FaultingIsQuiet(m, fault, epoch);
    QuietEvolves(m, RecoveryFaulted(fault, epoch), LatchRecoveryFault(m, fault, epoch));
  }

  lemma {:induction false} BarrierEvolves(m: Machine, newGeneration: int)
    requires Invariant(m)
    ensures var m' := ReconnectBarrier(m, newGeneration); Invariant(m') && Evolves(m, Reconnected(newGeneration), m')
  {
    hide Quiet, Evolves, Invariant, ReconnectBarrier;
    BarrierIsQuiet(m, newGeneration);
    QuietEvolves(m, Reconnected(newGeneration), ReconnectBarrier(m, newGeneration));
  }

  lemma {:induction false} AwaitingEvolves(m: Machine, result: EmptyReconciliation)
    requires Invariant(m)
    ensures var m' := AwaitReconnectHandoff(m, result); Invariant(m') && Evolves(m, HandoffAwaited(result), m')
  {
    hide Quiet, Evolves, Invariant, AwaitReconnectHandoff;
    AwaitingIsQuiet(m, result);
    QuietEvolves(m, HandoffAwaited(result), AwaitReconnectHandoff(m, result));
  }

  lemma {:induction false} VerifyingEvolves(m: Machine, e: Envelope, token: Token, answer: ReadAnswer)
    requires Invariant(m)
    ensures var m' := Verified(m, e, token, answer); Invariant(m') && Evolves(m, HistoricalRead(e, token, answer), m')
  {
    hide Quiet, Evolves, Invariant, Verified;
    VerifyingIsQuiet(m, e, token, answer);
    QuietEvolves(m, HistoricalRead(e, token, answer), Verified(m, e, token, answer));
  }

  lemma {:induction false} StoppingEvolves(m: Machine)
    requires Invariant(m)
    ensures var m' := Stop(m); Invariant(m') && Evolves(m, Stopped, m')
  {
    hide Quiet, Evolves, Invariant, Stop;
    StoppingIsQuiet(m);
    QuietEvolves(m, Stopped, Stop(m));
  }

  /** A quiet change of the queue followed by draining it. */
  lemma {:induction false} DrainEvolves(m: Machine, s: Stimulus, m1: Machine, m': Machine)
    requires Drained(m1, m') && Invariant(m')
    requires m1.pair == m.pair && m1.latest == m.latest && EpochsGrow(m, m1) && FaultGrows(m.truthFault, m1.truthFault)
    requires m1.flight == m.flight || (!Writing(m) && m1.flight.None?)
    requires m1.truthFault == m.truthFault && m1.recoveryActive == m.recoveryActive && m1.stopped == m.stopped
    requires CurrentToken(m1) == CurrentToken(m) && !s.CommitAnswered?
    ensures Evolves(m, s, m')
  {
  }

  lemma {:induction false} GraceEvolves(m: Machine, id: nat, now: int)
    requires Invariant(m)
    ensures var m' := GraceElapsed(m, id, now); Invariant(m') && Evolves(m, GraceTimer(id, now), m')
  {
    var s := GraceTimer(id, now);
    QuietReflexive(m);
    QuietEvolves(m, s, m);
    if id in m.timers {
      var Timer(t, token) := m.timers[id];
      var m1 := m.(timers := m.timers - {id});
      assert Quiet(m, m1);
      QuietEvolves(m, s, m1);
      if t in m.pendingFinalizations {
        var evidence := m.pendingFinalizations[t].providerEventTimeMs;
        SchedulingIsQuiet(m1, t, evidence);
        QuietComposes(m, m1, ScheduleFinalization(m1, t, evidence));
        QuietEvolves(m, s, ScheduleFinalization(m1, t, evidence));
        var dropped := m1.(pendingFinalizations := m.pendingFinalizations - {t});
        assert Quiet(m, dropped);
        QuietEvolves(m, s, dropped);
        EnqueueEvolves(m, s, m1, Candidate(t, LIVE_FINALIZATION, token, None), now);
      }
      hide Quiet, Evolves, Invariant, Enqueue, ScheduleFinalization;
    }
  }

  lemma {:induction false} EnqueueEvolves(m: Machine, s: Stimulus, m1: Machine, c: Candidate, now: int)
    requires Invariant(m1) && CandidateFits(c, c.openTimeMs, m.pair) && !s.CommitAnswered?
    requires m1 == m.(timers := m1.timers, waiters := m1.waiters, nextWaiter := m1.nextWaiter)
    ensures Invariant(Enqueue(m1, c, now)) && Evolves(m, s, Enqueue(m1, c, now))
  {
    EnqueueDrains(m1, c, now);
    var queued := m1.(readyToCommit := m1.readyToCommit[c.openTimeMs := c]);
    var m' := Enqueue(m1, c, now);
    if Drained(queued, m') {
      hide Drained;
      DrainEvolves(m, s, queued, m');
    }
  }

  lemma {:induction false} AnswerEvolves(m: Machine, ok: bool)
    requires Invariant(m)
    ensures Invariant(CommitSettled(m, ok)) && Evolves(m, CommitAnswered(ok), CommitSettled(m, ok))
  {
  }

  lemma {:induction false} CleanupEvolves(m: Machine, now: int)
    requires Invariant(m)
    ensures Invariant(CommitFinally(m, now)) && Evolves(m, CommitCleanup(now), CommitFinally(m, now))
  {
    if m.flight.Some? && m.flight.value.Returned? {
      var t := m.flight.value.candidate.openTimeMs;
      var m1 := ResolveSettled(m.(flight := None, pendingFinalizations := m.pendingFinalizations - {t}), t);
      DrainDrains(m1, now);
      hide Drained, Drain;
      DrainEvolves(m, CommitCleanup(now), m1, CommitFinally(m, now));
    }
  }

  lemma {:induction false} ResumeEvolves(m: Machine, a: Application, answer: ReadAnswer, now: int, cfg: Config)
    requires Invariant(m) && Enabled(m, ApplicationResumed(a, answer, now))
    ensures var m' := Resume(m, a, answer, now, cfg).machine;
            Invariant(m') && Evolves(m, ApplicationResumed(a, answer, now), m')
  {
    var s := ApplicationResumed(a, answer, now);
    match a.phase
    case Enqueuing(rest, awaiting) => EnqueuingEvolves(m, a, answer, now);
    case Settling(_) => SettledEvolves(m, a, answer, now);
    case Draining(items) => DrainingEvolves(m, a, answer, now, cfg);
    case CheckingOverlap(_, _, _) => OverlapEvolves(m, a, answer, now);
    case Reconciling(_, _) => LateEvolves(m, a, answer, now);
    case DrainVerifying(late, lateToken, _) =>
      VerifyingIsQuiet(m, late, lateToken, answer);
      QuietEvolves(m, s, Verified(m, late, lateToken, answer));
  }

  lemma {:induction false} EnqueuingEvolves(m: Machine, a: Application, answer: ReadAnswer, now: int)
    requires Invariant(m) && a.phase.Enqueuing?
    ensures var m' := EnqueueRecovered(m, a, now).machine;
            Invariant(m') && Evolves(m, ApplicationResumed(a, answer, now), m')
  {
    var s := ApplicationResumed(a, answer, now);
    var rest := a.phase.rest;
    QuietReflexive(m);
    LatchingIsQuiet(m, CANONICAL_CONFLICT);
    EnqueuingCases(m, a, now);
    hide Quiet, Evolves, Invariant, Enqueue, LatchFatal, EnqueueRecovered;
    QuietEvolves(m, s, m);
    QuietEvolves(m, s, LatchFatal(m, CANONICAL_CONFLICT));
    if rest != [] && rest[0].pair == m.pair {
      WaitingKeeps(m, Waiting(m, rest[0].openTimeMs));
      EnqueueEvolves(m, s, Waiting(m, rest[0].openTimeMs), Recovered(a, rest[0]), now);
    }
  }

  function Waiting(m: Machine, openTimeMs: int): Machine {
    m.(waiters := m.waiters[m.nextWaiter := openTimeMs], nextWaiter := m.nextWaiter + 1)
  }

  function Recovered(a: Application, candle: Candle): Candidate {
    Candidate(candle.openTimeMs, REST_RECOVERY, a.token, Some(candle))
  }

  lemma {:induction false} EnqueuingCases(m: Machine, a: Application, now: int)
    requires a.phase.Enqueuing?
    ensures var m' := EnqueueRecovered(m, a, now).machine;
            || m' == m || m' == LatchFatal(m, CANONICAL_CONFLICT)
            || (&& a.phase.rest != [] && a.phase.rest[0].pair == m.pair
                && m' == Enqueue(Waiting(m, a.phase.rest[0].openTimeMs), Recovered(a, a.phase.rest[0]), now))
  {
    hide Enqueue, LatchFatal;
  }

  lemma {:induction false} WaitingKeeps(m: Machine, m1: Machine)
    requires Invariant(m) && m1 == m.(waiters := m1.waiters, nextWaiter := m1.nextWaiter)
    ensures Invariant(m1)
  {
  }

  lemma {:induction false} DrainingEvolves(m: Machine, a: Application, answer: ReadAnswer, now: int, cfg: Config)
    requires Invariant(m) && a.phase.Draining?
    ensures var m' := DrainBuffered(m, a, now, cfg).machine;
            Invariant(m') && Evolves(m, ApplicationResumed(a, answer, now), m')
  {
    var s := ApplicationResumed(a, answer, now);
    QuietReflexive(m);
    hide Quiet, Evolves, Invariant, HandleEnvelope;
    QuietEvolves(m, s, m);
    if a.phase.items != [] {
      PacketIsQuiet(m, a.phase.items[0], now, cfg);
      QuietEvolves(m, s, HandleEnvelope(m, a.phase.items[0], now, cfg).0);
    }
  }

  lemma {:induction false} OverlapIsQuiet(m: Machine, a: Application, answer: ReadAnswer)
    requires a.phase.CheckingOverlap?
    ensures Quiet(m, OverlapChecked(m, a, answer).machine)
  {
  }

  lemma {:induction false} LateIsQuiet(m: Machine, a: Application, answer: ReadAnswer)
    requires a.phase.Reconciling?
    ensures Quiet(m, LateReconciled(m, a, answer).machine)
  {
    hide Quiet, Verified, Reconcile;
    var m1 := Verified(m, a.phase.late, a.phase.lateToken, answer);
    VerifyingIsQuiet(m, a.phase.late, a.phase.lateToken, answer);
    ReconcileIsQuiet(m1, a);
    QuietComposes(m, m1, Reconcile(m1, a).machine);
  }

  lemma {:induction false} OverlapEvolves(m: Machine, a: Application, answer: ReadAnswer, now: int)
    requires Invariant(m) && a.phase.CheckingOverlap?
    ensures var m' := OverlapChecked(m, a, answer).machine; Invariant(m') && Evolves(m, ApplicationResumed(a, answer, now), m')
  {
    hide Quiet, Evolves, Invariant, OverlapChecked;
    OverlapIsQuiet(m, a, answer);
    QuietEvolves(m, ApplicationResumed(a, answer, now), OverlapChecked(m, a, answer).machine);
  }

  lemma {:induction false} LateEvolves(m: Machine, a: Application, answer: ReadAnswer, now: int)
    requires Invariant(m) && a.phase.Reconciling?
    ensures var m' := LateReconciled(m, a, answer).machine; Invariant(m') && Evolves(m, ApplicationResumed(a, answer, now), m')
  {
    hide Quiet, Evolves, Invariant, LateReconciled;
    LateIsQuiet(m, a, answer);
    QuietEvolves(m, ApplicationResumed(a, answer, now), LateReconciled(m, a, answer).machine);
  }

  lemma {:induction false} ReconcileIsQuiet(m: Machine, a: Application)
    ensures Quiet(m, Reconcile(m, a).machine)
  {
    hide SortByMinute, FirstOverlap, Quiet;
    var i := if m.latest.Some? then FirstOverlap(m.recoveryBuffer, m.latest.value) else |m.recoveryBuffer|;
    if i < |m.recoveryBuffer| {
      RebufferingIsQuiet(m, m.recoveryBuffer[..i] + m.recoveryBuffer[i + 1..]);
    }
    HandingOverIsQuiet(m);
  }

  lemma {:induction false} HandingOverIsQuiet(m: Machine)
    ensures Quiet(m, m.(recoveryBuffer := [], recoveryActive := false, reconnectRecoveryFromMs := None, emptyReconciliation := None))
  {
  }

  lemma {:induction false} SettledEvolves(m: Machine, a: Application, answer: ReadAnswer, now: int)
    requires Invariant(m) && a.phase.Settling? && Enabled(m, ApplicationResumed(a, answer, now))
    ensures var m' := BatchSettled(m, a).machine;
            Invariant(m') && Evolves(m, ApplicationResumed(a, answer, now), m')
  {
    var s := ApplicationResumed(a, answer, now);
    QuietReflexive(m);
    QuietEvolves(m, s, m);
    if TokenValid(m, a.token, REST_RECOVERY) {
      var m1 := if m.truthFault == RECOVERY_INCOMPLETE then m.(truthFault := NONE) else m;
      ReconcileIsQuiet(m1, a);
      QuietKeeps(m1, Reconcile(m1, a).machine);
    }
  }

  // ------------------------------------------------------- tokens never revive

  /** A token some machine handed out earlier in its life. */
  ghost predicate Issued(m: Machine, token: Token) {
    && token.canonicalEpoch <= m.canonicalEpoch && token.recoveryEpoch <= m.recoveryEpoch
    && GenerationGrows(token.generationId, m.generationId)
  }

  /** Once a commit's or a recovery's token is invalid, no later reaction makes it valid again. */
  lemma {:induction false} TokenNeverRevives(m: Machine, m': Machine, token: Token, origin: Origin)
    requires Issued(m, token) && EpochsGrow(m, m')
    ensures Issued(m', token)
    ensures !TokenValid(m, token, origin) ==> !TokenValid(m', token, origin)
  {
  }

  /** What invalidates: a reconnect and a stop kill every token, a new recovery those of earlier recoveries. */
  lemma {:induction false} Invalidation(m: Machine, token: Token, newGeneration: int)
    requires Issued(m, token)
    ensures !TokenValid(Stop(m), token, LIVE_FINALIZATION) && !TokenValid(Stop(m), token, REST_RECOVERY)
    ensures !TokenValid(EnterRecovery(m), token, REST_RECOVERY)
    ensures ReconnectBarrier(m, newGeneration) == m ||
            (&& !TokenValid(ReconnectBarrier(m, newGeneration), token, LIVE_FINALIZATION)
             && !TokenValid(ReconnectBarrier(m, newGeneration), token, REST_RECOVERY))
    ensures Issued(m, CurrentToken(m))
  {
  }

  // --------------------------------------------------------- runs of a machine

  /** A run of one machine: its successive states under any stimuli. */
  ghost predicate Lives(ms: seq<Machine>, ss: seq<Stimulus>, cfg: Config) {
    && |ms| == |ss| + 1 && Invariant(ms[0])
    && forall j :: 0 <= j < |ss| ==> LivesOn(ms[j], ss[j], cfg, ms[j + 1])
  }

  ghost predicate LivesOn(m: Machine, s: Stimulus, cfg: Config, m': Machine) {
    && Enabled(m, s)
    && m' == React(m, s, cfg).machine
  }

  lemma {:induction false} LifeKeeps(ms: seq<Machine>, ss: seq<Stimulus>, cfg: Config, j: nat)
    requires Lives(ms, ss, cfg) && j < |ms|
    ensures Invariant(ms[j])
    ensures EpochsGrow(ms[0], ms[j])
    ensures ms[0].latest.Some? ==> ms[j].latest.Some? && ms[0].latest.value <= ms[j].latest.value
    ensures Absorbing(ms[0].truthFault) ==> Absorbing(ms[j].truthFault)
  {
    hide React, Enabled;
    if j > 0 {
      LifeKeeps(ms, ss, cfg, j - 1);
      assert LivesOn(ms[j - 1], ss[j - 1], cfg, ms[j]);
      ReactionEvolves(ms[j - 1], ss[j - 1], cfg);
      hide Invariant;
    }
  }

  /** A commit whose token has become invalid never moves the watermark: until its answer has been
      dealt with, and by that answer, the watermark stays where it was. */
  lemma {:induction false} StaleCommitIsInert(ms: seq<Machine>, ss: seq<Stimulus>, cfg: Config, j: nat)
    requires Lives(ms, ss, cfg) && j < |ms| && Writing(ms[0])
    requires var c := ms[0].flight.value.candidate; Issued(ms[0], c.token) && !TokenValid(ms[0], c.token, c.origin)
    requires forall i :: 0 <= i < j - 1 ==> !ss[i].CommitAnswered?
    ensures ms[j].latest == ms[0].latest
    ensures j == 0 || !ss[j - 1].CommitAnswered? ==> ms[j].flight == ms[0].flight
    ensures var c := ms[0].flight.value.candidate; Issued(ms[j], c.token) && !TokenValid(ms[j], c.token, c.origin)
  {
    hide React, Enabled;
    if j > 0 {
      StaleCommitIsInert(ms, ss, cfg, j - 1);
      LifeKeeps(ms, ss, cfg, j - 1);
      assert LivesOn(ms[j - 1], ss[j - 1], cfg, ms[j]);
      ReactionEvolves(ms[j - 1], ss[j - 1], cfg);
      hide Invariant;
      var c := ms[0].flight.value.candidate;
      TokenNeverRevives(ms[j - 1], ms[j], c.token, c.origin);
    }
  }
}
