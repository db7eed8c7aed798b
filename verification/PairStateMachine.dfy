/** The mutable object of src/market-data/pair-state.ts: its fields, changed in
    place by methods that end where the source awaits. Every method is proved
    against the function of module PairState for the same piece. */
module PairStateMachine {
  import opened Common
  import opened WorkingCandle
  import opened PairState
  import opened PairStateTheorems

  /** The scan the source performs over the keys of a map. */
  method Smallest(keys: set<int>) returns (least: int)
    requires keys != {}
    ensures least == Least(keys)
  {
    assert (forall z :: z !in keys) ==> keys <= {};
    least :| least in keys;
    var rest := keys - {least};
    while rest != {}
      invariant rest <= keys && least in keys
      invariant forall x <- keys :: x in rest || least <= x
      decreases rest
    {
      assert (forall z :: z !in rest) ==> rest <= {};
      var t :| t in rest;
      if t < least {
        least := t;
      }
      rest := rest - {t};
    }
  }

  class PairCanonicalStateMachine {
    const pair: string
    const cfg: Config
    const workingManager: WorkingCandleManager
    var pendingFinalizations: map<int, Pending>
    var timers: map<nat, Timer>
    var nextTimer: nat
    var recoveryBuffer: seq<Envelope>
    var readyToCommit: map<int, Candidate>
    var flight: Option<Flight>
    var waiters: map<nat, int>
    var nextWaiter: nat
    var recoveryActive: bool
    var reconnectRecoveryFromMs: Option<int>
    var emptyReconciliation: Option<EmptyReconciliation>
    var truthFault: TruthFault
    var canonicalEpoch: int
    var recoveryEpoch: int
    var currentGenerationId: Option<int>
    var latestCanonicalOpenTimeMs: Option<int>
    var isStopped: bool

    /** What holds whenever no handler is running. */
    ghost predicate Valid()
      reads this, workingManager
    {
      workingManager.Valid() && Invariant(View())
    }

    ghost function View(): Machine
      reads this, workingManager
    {
      Machine(pair, workingManager.View(), pendingFinalizations, timers, nextTimer, recoveryBuffer, readyToCommit,
              flight, waiters, nextWaiter, recoveryActive, reconnectRecoveryFromMs, emptyReconciliation, truthFault,
              canonicalEpoch, recoveryEpoch, currentGenerationId, latestCanonicalOpenTimeMs, isStopped)
    }

    constructor (pair: string, cfg: Config, baseline: Option<int>)
      ensures Valid() && fresh(workingManager)
      ensures View() == NewMachine(pair, baseline)
    {
      this.pair, this.cfg := pair, cfg;
      workingManager := new WorkingCandleManager();
      pendingFinalizations, timers, nextTimer := map[], map[], 0;
      recoveryBuffer, readyToCommit, flight := [], map[], None;
      waiters, nextWaiter := map[], 0;
      recoveryActive, reconnectRecoveryFromMs, emptyReconciliation := false, None, None;
      truthFault, canonicalEpoch, recoveryEpoch := NONE, 1, 1;
      currentGenerationId, latestCanonicalOpenTimeMs, isStopped := None, baseline, false;
    }

    method IsTokenValid(token: Token, origin: Origin) returns (valid: bool)
      ensures valid == TokenValid(View(), token, origin)
    {
      if isStopped {
        return false;
      }
      if token.canonicalEpoch != canonicalEpoch {
        return false;
      }
      if origin == REST_RECOVERY && token.recoveryEpoch != recoveryEpoch {
        return false;
      }
      if token.generationId.Some? && currentGenerationId.Some? && token.generationId != currentGenerationId {
        return false;
      }
      return true;
    }

    // ------------------------------------------------------------- clearing

    method ClearAllPendingFinalizations()
      requires workingManager.Valid()
      modifies this
      ensures workingManager.Valid() && View() == ClearAllPending(old(View()))
    {
      hide Consistent;
      timers := timers - TimerIds(pendingFinalizations);
      pendingFinalizations := map[];
      ReleaseAllWaiters();
      readyToCommit := map[];
    }

    method ForgetEvidence()
      requires workingManager.Valid()
      modifies this`recoveryBuffer, workingManager
      ensures workingManager.Valid() && View() == Forget(old(View()))
    {
      hide Consistent;
      workingManager.Clear(pair);
      recoveryBuffer := [];
    }

    method LatchFatalFault(fault: TruthFault)
      requires workingManager.Valid()
      modifies this, workingManager
      ensures workingManager.Valid() && View() == LatchFatal(old(View()), fault)
    {
      hide Consistent, ClearAllPending, Forget;
      truthFault := fault;
      DiscardUncommitted();
    }

    method EnterRecoveryMode() returns (epoch: int)
      requires Valid()
      modifies this
      ensures Valid() && View() == EnterRecovery(old(View())) && epoch == recoveryEpoch
      ensures Evolves(old(View()), RecoveryEntered, View())
    {
      EnteringEvolves(View());
      hide Consistent, EnterRecovery, Invariant, Evolves;
      epoch := BeginRecovery();
    }

    method BeginRecovery() returns (epoch: int)
      requires workingManager.Valid()
      modifies this
      ensures workingManager.Valid() && View() == EnterRecovery(old(View())) && epoch == recoveryEpoch
    {
      hide Consistent, ClearAllPending;
      if isStopped {
        return recoveryEpoch;
      }
      recoveryEpoch := recoveryEpoch + 1;
      recoveryActive := true;
      emptyReconciliation := None;
      ClearAllPendingFinalizations();
      return recoveryEpoch;
    }

    method LatchIncomplete(fault: TruthFault, epoch: int)
      requires Valid()
      modifies this
      ensures Valid() && View() == LatchRecoveryFault(old(View()), fault, epoch)
      ensures Evolves(old(View()), RecoveryFaulted(fault, epoch), View())
    {
      hide Invariant, Evolves, Consistent;
      FaultingEvolves(View(), fault, epoch);
      if isStopped || epoch != recoveryEpoch || truthFault != NONE {
        return;
      }
      truthFault := fault;
      recoveryActive := true;
    }

    method AwaitHandoff(result: EmptyReconciliation)
      requires Valid()
      modifies this
      ensures Valid() && View() == AwaitReconnectHandoff(old(View()), result)
      ensures Evolves(old(View()), HandoffAwaited(result), View())
    {
      hide Invariant, Evolves, Consistent;
      AwaitingEvolves(View(), result);
      if !isStopped && recoveryActive {
        emptyReconciliation := Some(result);
      }
    }

    method HandleReconnectBarrier(newGeneration: int)
      requires Valid()
      modifies this, workingManager
      ensures Valid() && View() == ReconnectBarrier(old(View()), newGeneration)
      ensures Evolves(old(View()), Reconnected(newGeneration), View())
    {
      hide Invariant, Evolves, Consistent, ClearAllPending, Forget, ReconnectFrom;
      BarrierEvolves(View(), newGeneration);
      if isStopped || (currentGenerationId.Some? && newGeneration < currentGenerationId.value) {
        return;
      }
      BeginGeneration(newGeneration);
      DiscardUncommitted();
      recoveryActive := true;
      emptyReconciliation := None;
    }

    method BeginGeneration(newGeneration: int)
      requires workingManager.Valid()
      modifies this`reconnectRecoveryFromMs, this`currentGenerationId, this`canonicalEpoch, this`recoveryEpoch
      ensures workingManager.Valid()
      ensures View() == old(View()).(reconnectRecoveryFromMs := ReconnectFrom(old(View())),
                                     generationId := Some(newGeneration),
                                     canonicalEpoch := old(canonicalEpoch) + 1, recoveryEpoch := old(recoveryEpoch) + 1)
    {
      hide Consistent, ReconnectFrom;
      NoteReconnectDebt();
      currentGenerationId := Some(newGeneration);
      canonicalEpoch := canonicalEpoch + 1;
      recoveryEpoch := recoveryEpoch + 1;
    }

    method DiscardUncommitted()
      requires workingManager.Valid()
      modifies this, workingManager
      ensures workingManager.Valid() && View() == Forget(ClearAllPending(old(View())))
    {
      hide Consistent, ClearAllPending, Forget;
      ClearAllPendingFinalizations();
      ForgetEvidence();
    }

    method NoteReconnectDebt()
      requires workingManager.Valid()
      modifies this`reconnectRecoveryFromMs
      ensures workingManager.Valid() && View() == old(View()).(reconnectRecoveryFromMs := ReconnectFrom(old(View())))
    {
      hide Consistent, Unresolved;
      var unresolved := Unresolved(Fields());
      if latestCanonicalOpenTimeMs.Some? {
        reconnectRecoveryFromMs := Some(latestCanonicalOpenTimeMs.value + MINUTE_MS);
      } else if unresolved == {} {
        reconnectRecoveryFromMs := None;
      } else {
        var least := Smallest(unresolved);
        reconnectRecoveryFromMs := Some(least);
      }
    }

    /** A snapshot of the fields, for the pure helpers. */
    function Fields(): (m: Machine)
      reads this, workingManager
      ensures m == View()
    {
      Machine(pair, Manager(workingManager.workingMap, workingManager.currentOpenTimeByPair, workingManager.evidence),
              pendingFinalizations, timers, nextTimer, recoveryBuffer, readyToCommit,
              flight, waiters, nextWaiter, recoveryActive, reconnectRecoveryFromMs, emptyReconciliation, truthFault,
              canonicalEpoch, recoveryEpoch, currentGenerationId, latestCanonicalOpenTimeMs, isStopped)
    }

    method Stop()
      requires Valid()
      modifies this, workingManager
      ensures Valid() && View() == PairState.Stop(old(View()))
      ensures Evolves(old(View()), Stopped, View())
    {
      hide Invariant, Evolves, Consistent, ClearAllPending, Forget;
      StoppingEvolves(View());
      isStopped := true;
      canonicalEpoch := canonicalEpoch + 1;
      recoveryEpoch := recoveryEpoch + 1;
      DiscardUncommitted();
    }

    // --------------------------------------------------------- commit queue

    method ResolveCommitSettled(openTimeMs: int)
      requires workingManager.Valid()
      modifies this`waiters
      ensures workingManager.Valid() && View() == ResolveSettled(old(View()), openTimeMs)
    {
      waiters := map id | id in waiters && waiters[id] != openTimeMs :: waiters[id];
    }

    method ReleaseAllWaiters()
      requires workingManager.Valid()
      modifies this`waiters
      ensures workingManager.Valid() && View() == ResolveAllReady(old(View()))
    {
      waiters := map id | id in waiters && waiters[id] !in readyToCommit :: waiters[id];
    }

    method DropSuperseded(t: int)
      requires workingManager.Valid()
      modifies this`readyToCommit, this`pendingFinalizations, this`waiters
      ensures workingManager.Valid() && View() == ResolveSettled(old(View()).(readyToCommit := old(readyToCommit) - {t},
                                                              pendingFinalizations := old(pendingFinalizations) - {t}), t)
      ensures readyToCommit == old(readyToCommit) - {t}
    {
      readyToCommit := readyToCommit - {t};
      pendingFinalizations := pendingFinalizations - {t};
      ResolveCommitSettled(t);
    }

    method DrainCommitQueue(now: int)
      requires workingManager.Valid()
      modifies this
      ensures workingManager.Valid() && View() == Drain(old(View()), now)
      decreases |readyToCommit|
    {
      hide Consistent, StartCommit, ResolveSettled, ResolveAllReady;
      if isStopped || flight.Some? || readyToCommit == map[] {
        return;
      }
      assert readyToCommit.Keys != {};
      var t := Smallest(readyToCommit.Keys);
      var candidate := readyToCommit[t];
      var canResolveOwnFault := truthFault == RECOVERY_INCOMPLETE && candidate.origin == REST_RECOVERY;
      if truthFault != NONE && !canResolveOwnFault {
        ReleaseAllWaiters();
        return;
      }
      if latestCanonicalOpenTimeMs.Some? && t <= latestCanonicalOpenTimeMs.value {
        DropSuperseded(t);
        DrainCommitQueue(now);
        return;
      }
      if latestCanonicalOpenTimeMs.Some? && t != latestCanonicalOpenTimeMs.value + MINUTE_MS {
        return;
      }
      readyToCommit := readyToCommit - {t};
      CommitOne(candidate, now);
    }

    /** `#commitOne` up to its await of `onFinalizeCandle`. */
    method CommitOne(candidate: Candidate, now: int)
      requires workingManager.Valid()
      modifies this`flight, this`truthFault
      ensures workingManager.Valid() && View() == StartCommit(old(View()), candidate, now)
    {
      flight := Some(Returned(candidate));
      var valid := IsTokenValid(candidate.token, candidate.origin);
      if !valid {
        return;
      }
      if candidate.origin == LIVE_FINALIZATION && recoveryActive {
        return;
      }
      var canResolveOwnFault := truthFault == RECOVERY_INCOMPLETE && candidate.origin == REST_RECOVERY;
      if truthFault != NONE && !canResolveOwnFault {
        return;
      }
      if candidate.origin == REST_RECOVERY {
        if candidate.prebuilt.Some? {
          flight := Some(Persisting(candidate, candidate.prebuilt.value));
        }
        return;
      }
      if Key(pair, candidate.openTimeMs) !in workingManager.workingMap {
        return;
      }
      var working := workingManager.workingMap[Key(pair, candidate.openTimeMs)];
      if CandleConstructible(working.openTimeMs, working.values, now) {
        flight := Some(Persisting(candidate, Candle(working.pair, working.openTimeMs, working.values)));
      } else {
        truthFault := PERSISTENCE_FAILURE;
      }
    }

    method EnqueueCommitCandidate(candidate: Candidate, now: int)
      requires workingManager.Valid()
      modifies this
      ensures workingManager.Valid() && View() == Enqueue(old(View()), candidate, now)
    {
      if candidate.openTimeMs in readyToCommit {
        var existing := readyToCommit[candidate.openTimeMs];
        if existing.origin == REST_RECOVERY && candidate.origin == LIVE_FINALIZATION {
          return;
        }
      }
      readyToCommit := readyToCommit[candidate.openTimeMs := candidate];
      DrainCommitQueue(now);
    }

    /** `#commitOne` once `onFinalizeCandle` has returned (`acknowledged`) or thrown. */
    method CommitOneAnswered(acknowledged: bool)
      requires Valid()
      modifies this`flight, this`truthFault, this`latestCanonicalOpenTimeMs, workingManager
      ensures Valid() && View() == CommitSettled(old(View()), acknowledged)
      ensures Evolves(old(View()), CommitAnswered(acknowledged), View())
    {
      hide Invariant, Evolves, Consistent, Advanced;
      AnswerEvolves(View(), acknowledged);
      if flight.None? || flight.value.Returned? {
        return;
      }
      var candidate, candle := flight.value.candidate, flight.value.candle;
      flight := Some(Returned(candidate));
      if !acknowledged {
        truthFault := PERSISTENCE_FAILURE;
        return;
      }
      AdvanceWatermark(candidate, candle);
    }

    /** The candle is durable: the watermark follows, unless the commit has become stale. */
    method AdvanceWatermark(candidate: Candidate, candle: Candle)
      requires workingManager.Valid()
      modifies this`latestCanonicalOpenTimeMs, workingManager
      ensures workingManager.Valid() && View() == Advanced(old(View()), candidate, candle)
    {
      hide Consistent, Deleted;
      var valid := IsTokenValid(candidate.token, candidate.origin);
      if !valid {
        return;
      }
      if latestCanonicalOpenTimeMs.None? || candle.openTimeMs > latestCanonicalOpenTimeMs.value {
        latestCanonicalOpenTimeMs := Some(candle.openTimeMs);
      }
      workingManager.Delete(pair, candidate.openTimeMs);
    }

    method CommitOneFinally(now: int)
      requires Valid()
      modifies this
      ensures Valid() && View() == CommitFinally(old(View()), now)
      ensures Evolves(old(View()), CommitCleanup(now), View())
    {
      hide Invariant, Evolves, Consistent;
      CleanupEvolves(View(), now);
      if flight.None? || flight.value.Persisting? {
        return;
      }
      var t := flight.value.candidate.openTimeMs;
      flight := None;
      pendingFinalizations := pendingFinalizations - {t};
      ResolveCommitSettled(t);
      DrainCommitQueue(now);
    }

    // ------------------------------------------------------------ finalisation

    method Schedule(openTimeMs: int, providerEventTimeMs: int)
      requires workingManager.Valid()
      modifies this`timers, this`pendingFinalizations, this`readyToCommit, this`nextTimer
      ensures workingManager.Valid() && View() == ScheduleFinalization(old(View()), openTimeMs, providerEventTimeMs)
    {
      hide Consistent, FinalizationCancelled;
      if recoveryActive || truthFault != NONE || providerEventTimeMs < openTimeMs + MINUTE_MS {
        return;
      }
      CancelFinalization(openTimeMs);
      timers := timers[nextTimer := Timer(openTimeMs, Token(canonicalEpoch, recoveryEpoch, currentGenerationId))];
      pendingFinalizations := pendingFinalizations[openTimeMs := Pending(nextTimer, providerEventTimeMs)];
      nextTimer := nextTimer + 1;
    }

    method CancelFinalization(openTimeMs: int)
      modifies this`timers, this`readyToCommit
      ensures View() == FinalizationCancelled(old(View()), openTimeMs)
    {
      if openTimeMs in pendingFinalizations {
        timers := timers - {pendingFinalizations[openTimeMs].timerId};
        readyToCommit := readyToCommit - {openTimeMs};
      }
    }

    method OnFinalizationGraceElapsed(timerId: nat, now: int)
      requires Valid()
      modifies this
      ensures Valid() && View() == GraceElapsed(old(View()), timerId, now)
      ensures Evolves(old(View()), GraceTimer(timerId, now), View())
    {
      hide Invariant, Evolves, Consistent;
      GraceEvolves(View(), timerId, now);
      if timerId !in timers {
        return;
      }
      var Timer(t, token) := timers[timerId];
      timers := timers - {timerId};
      if isStopped || t !in pendingFinalizations || recoveryActive {
        return;
      }
      if now < t + MINUTE_MS {
        Schedule(t, pendingFinalizations[t].providerEventTimeMs);
        return;
      }
      var valid := IsTokenValid(token, LIVE_FINALIZATION);
      if !valid {
        pendingFinalizations := pendingFinalizations - {t};
        return;
      }
      EnqueueCommitCandidate(Candidate(t, LIVE_FINALIZATION, token, None), now);
    }

    // ----------------------------------------------------------------- packets

    method Buffer(e: Envelope)
      requires workingManager.Valid()
      modifies this, workingManager
      ensures workingManager.Valid() && View() == BufferEnvelope(old(View()), e, cfg) && recoveryEpoch == old(recoveryEpoch)
    {
      hide Consistent;
      ObserveConsistent(workingManager.View(), SnapshotOf(e));
      var fault := workingManager.ObserveEvidence(SnapshotOf(e));
      if fault.Some? {
        LatchFatalFault(if fault.value == CONFLICT then CANONICAL_CONFLICT else BUFFER_OVERFLOW);
        return;
      }
      var i := BufferIndex(recoveryBuffer, e.openTimeMs);
      if i < |recoveryBuffer| {
        var existing := recoveryBuffer[i];
        if e.providerEventTimeMs == existing.providerEventTimeMs && e.values != existing.values {
          LatchFatalFault(CANONICAL_CONFLICT);
        } else if e.providerEventTimeMs > existing.providerEventTimeMs {
          recoveryBuffer := recoveryBuffer[i := e];
        }
        return;
      }
      if |recoveryBuffer| >= cfg.maxRecoveryBuffer {
        LatchFatalFault(BUFFER_OVERFLOW);
        return;
      }
      recoveryBuffer := recoveryBuffer + [e];
    }

    method ApplyWorkingUpdate(e: Envelope)
      requires workingManager.Valid()
      modifies this, workingManager
      ensures workingManager.Valid() && View() == ApplyWorking(old(View()), e)
    {
      var result := workingManager.Update(SnapshotOf(e));
      if result.FAULTED? {
        LatchFatalFault(if result.fault == CONFLICT then CANONICAL_CONFLICT else BUFFER_OVERFLOW);
      }
    }

    method StartGapRecovery(e: Envelope, fromMs: int) returns (effect: Effect)
      requires workingManager.Valid()
      modifies this, workingManager
      ensures workingManager.Valid() && (View(), effect) == OpenGap(old(View()), e, fromMs, cfg)
    {
      hide Consistent, EnterRecovery, BufferEnvelope;
      var epoch := BeginRecovery();
      Buffer(e);
      return RequestRecovery(fromMs, e.openTimeMs - MINUTE_MS, epoch);
    }

    method ClassifyLive(e: Envelope) returns (effect: Effect)
      requires workingManager.Valid()
      modifies this, workingManager
      ensures workingManager.Valid() && (View(), effect) == AcceptLive(old(View()), e, cfg)
    {
      hide Consistent, OpenGap, ApplyWorking, ScheduleFinalization;
      var working := workingManager.currentOpenTimeByPair;
      if pair !in working && latestCanonicalOpenTimeMs.Some? && e.openTimeMs > latestCanonicalOpenTimeMs.value + MINUTE_MS {
        effect := StartGapRecovery(e, latestCanonicalOpenTimeMs.value + MINUTE_MS);
      } else if latestCanonicalOpenTimeMs.Some? && e.openTimeMs <= latestCanonicalOpenTimeMs.value {
        effect := VerifyHistorical(e, Token(canonicalEpoch, recoveryEpoch, currentGenerationId));
      } else if pair !in working || e.openTimeMs == working[pair] {
        ApplyWorkingUpdate(e);
        effect := NoEffect;
      } else if e.openTimeMs < working[pair] {
        if e.openTimeMs in pendingFinalizations {
          ApplyWorkingUpdate(e);
        }
        effect := NoEffect;
      } else if e.openTimeMs - working[pair] == MINUTE_MS {
        Schedule(working[pair], e.providerEventTimeMs);
        ApplyWorkingUpdate(e);
        effect := NoEffect;
      } else {
        effect := StartGapRecovery(e, working[pair]);
      }
    }

    method ClassifyRecovering(e: Envelope, now: int) returns (effect: Effect)
      requires workingManager.Valid()
      modifies this, workingManager
      ensures workingManager.Valid() && (View(), effect) == AcceptRecovering(old(View()), e, now, cfg)
    {
      hide Consistent, BufferEnvelope, AcceptLive;
      effect := NoEffect;
      if emptyReconciliation.None? || truthFault != NONE {
        Buffer(e);
        return;
      }
      if !SourceIsFresh(e.providerEventTimeMs, now, cfg) {
        return;
      }
      var from := reconnectRecoveryFromMs;
      if from.Some? && e.openTimeMs < from.value {
        return;
      }
      emptyReconciliation := None;
      if from.Some? && e.openTimeMs > from.value {
        Buffer(e);
        effect := RequestRecovery(from.value, e.openTimeMs - MINUTE_MS, recoveryEpoch);
        return;
      }
      CompleteHandoff();
      effect := ClassifyLive(e);
    }

    method CompleteHandoff()
      requires workingManager.Valid()
      modifies this`reconnectRecoveryFromMs, this`recoveryActive
      ensures workingManager.Valid() && View() == old(View()).(reconnectRecoveryFromMs := None, recoveryActive := false)
    {
      reconnectRecoveryFromMs := None;
      recoveryActive := false;
    }

    method HandleStreamEnvelope(e: Envelope, now: int) returns (effect: Effect)
      requires Valid()
      modifies this, workingManager
      ensures Valid() && (View(), effect) == HandleEnvelope(old(View()), e, now, cfg)
      ensures Evolves(old(View()), Packet(e, now), View())
    {
      hide Invariant, Evolves, Consistent;
      PacketEvolves(View(), e, now, cfg);
      effect := NoEffect;
      if isStopped || e.pair != pair {
        return;
      }
      if currentGenerationId.Some? && e.generationId < currentGenerationId.value {
        return;
      }
      currentGenerationId := Some(e.generationId);
      if !TimeSafe(e, now, cfg) {
        truthFault := TIME_INVALID;
        return;
      }
      if e.providerEventTimeMs > now + cfg.maxFutureSkewMs {
        return;
      }
      if truthFault != NONE && truthFault != RECOVERY_INCOMPLETE {
        return;
      }
      if recoveryActive {
        effect := ClassifyRecovering(e, now);
        return;
      }
      if truthFault != NONE {
        return;
      }
      effect := ClassifyLive(e);
    }

    method HistoricalVerified(e: Envelope, token: Token, answer: ReadAnswer)
      requires Valid()
      modifies this`truthFault
      ensures Valid() && View() == Verified(old(View()), e, token, answer)
      ensures Evolves(old(View()), HistoricalRead(e, token, answer), View())
    {
      hide Invariant, Evolves, Consistent;
      VerifyingEvolves(View(), e, token, answer);
      var valid := IsTokenValid(token, REST_RECOVERY);
      if !valid {
        return;
      }
      match answer
      case ReadFailed => truthFault := PERSISTENCE_FAILURE;
      case Missing => truthFault := CANONICAL_CONFLICT;
      case Found(existing) =>
        if e.providerEventTimeMs < existing.openTimeMs + MINUTE_MS {
          return;
        }
        if !SameValues(existing.values, e.values) {
          truthFault := CANONICAL_CONFLICT;
        }
    }

    // ------------------------------------------- application of a recovery

    /** One turn of the loop that queues the recovered candles. */
    method ApplyNextRecovered(a: Application, now: int) returns (next: Next)
      requires Valid() && a.phase.Enqueuing?
      modifies this, workingManager
      ensures Valid() && Reaction(View(), NoEffect, next) == EnqueueRecovered(old(View()), a, now)
      ensures Evolves(old(View()), ApplicationResumed(a, Missing, now), View())
    {
      hide Invariant, Evolves, Consistent, Enqueue, LatchFatal;
      EnqueuingEvolves(View(), a, Missing, now);
      var Enqueuing(rest, awaiting) := a.phase;
      if rest == [] {
        return Continue(a.(phase := Settling(awaiting)));
      }
      var valid := IsTokenValid(a.token, REST_RECOVERY);
      if !valid {
        return Finished;
      }
      var candle := rest[0];
      if candle.pair != pair {
        LatchFatalFault(CANONICAL_CONFLICT);
        return Finished;
      }
      if latestCanonicalOpenTimeMs.Some? && candle.openTimeMs <= latestCanonicalOpenTimeMs.value {
        return Continue(a.(phase := CheckingOverlap(candle, rest[1..], awaiting)));
      }
      next := Continue(a.(phase := Enqueuing(rest[1..], awaiting + {nextWaiter})));
      waiters := waiters[nextWaiter := candle.openTimeMs];
      nextWaiter := nextWaiter + 1;
      EnqueueCommitCandidate(Candidate(candle.openTimeMs, REST_RECOVERY, a.token, Some(candle)), now);
    }

    method ApplyOverlapChecked(a: Application, answer: ReadAnswer, now: int) returns (next: Next)
      requires Valid() && a.phase.CheckingOverlap?
      modifies this`truthFault
      ensures Valid() && Reaction(View(), NoEffect, next) == OverlapChecked(old(View()), a, answer)
      ensures Evolves(old(View()), ApplicationResumed(a, answer, now), View())
    {
      hide Invariant, Evolves, Consistent;
      OverlapEvolves(View(), a, answer, now);
      var CheckingOverlap(candle, rest, awaiting) := a.phase;
      if answer.ReadFailed? {
        return Threw;
      }
      var valid := IsTokenValid(a.token, REST_RECOVERY);
      if !valid {
        return Finished;
      }
      if answer.Missing? || !Compatible(answer.candle, candle) {
        truthFault := CANONICAL_CONFLICT;
        return Finished;
      }
      return Continue(a.(phase := Enqueuing(rest, awaiting)));
    }

    /** Every commit the batch waits for has settled. */
    method ApplyBatchSettled(a: Application, now: int) returns (next: Next)
      requires Valid() && a.phase.Settling? && a.phase.awaiting !! waiters.Keys
      modifies this
      ensures Valid() && Reaction(View(), NoEffect, next) == BatchSettled(old(View()), a)
      ensures Evolves(old(View()), ApplicationResumed(a, Missing, now), View())
    {
      hide Invariant, Evolves, Consistent;
      SettledEvolves(View(), a, Missing, now);
      var valid := IsTokenValid(a.token, REST_RECOVERY);
      if !valid {
        return Finished;
      }
      if truthFault == RECOVERY_INCOMPLETE {
        truthFault := NONE;
      }
      if truthFault != NONE {
        return Finished;
      }
      next := ReconcileBuffer(a);
    }

    method ReconcileBuffer(a: Application) returns (next: Next)
      requires workingManager.Valid()
      modifies this
      ensures workingManager.Valid() && Reaction(View(), NoEffect, next) == Reconcile(old(View()), a)
    {
      hide Consistent, SortByMinute, FirstOverlap;
      var i := |recoveryBuffer|;
      if latestCanonicalOpenTimeMs.Some? {
        i := FirstOverlap(recoveryBuffer, latestCanonicalOpenTimeMs.value);
      }
      if i < |recoveryBuffer| {
        var late := recoveryBuffer[i];
        recoveryBuffer := recoveryBuffer[..i] + recoveryBuffer[i + 1..];
        return Continue(a.(phase := Reconciling(late, Token(canonicalEpoch, recoveryEpoch, currentGenerationId))));
      }
      var buffered := SortByMinute(recoveryBuffer);
      recoveryBuffer := [];
      recoveryActive := false;
      reconnectRecoveryFromMs := None;
      emptyReconciliation := None;
      return Continue(a.(phase := Draining(buffered)));
    }

    method ApplyLateReconciled(a: Application, answer: ReadAnswer, now: int) returns (next: Next)
      requires Valid() && a.phase.Reconciling?
      modifies this
      ensures Valid() && Reaction(View(), NoEffect, next) == LateReconciled(old(View()), a, answer)
      ensures Evolves(old(View()), ApplicationResumed(a, answer, now), View())
    {
      hide Invariant, Evolves, Consistent;
      LateEvolves(View(), a, answer, now);
      HistoricalVerified(a.phase.late, a.phase.lateToken, answer);
      var valid := IsTokenValid(a.token, REST_RECOVERY);
      if !valid || truthFault != NONE {
        return Finished;
      }
      next := ReconcileBuffer(a);
    }

    method ApplyNextBuffered(a: Application, now: int) returns (effect: Effect, next: Next)
      requires Valid() && a.phase.Draining?
      modifies this, workingManager
      ensures Valid() && Reaction(View(), effect, next) == DrainBuffered(old(View()), a, now, cfg)
      ensures Evolves(old(View()), ApplicationResumed(a, Missing, now), View())
    {
      hide Invariant, Evolves, Consistent;
      DrainingEvolves(View(), a, Missing, now, cfg);
      var items := a.phase.items;
      if items == [] {
        return NoEffect, Finished;
      }
      var valid := IsTokenValid(a.token, REST_RECOVERY);
      if !valid {
        return NoEffect, Finished;
      }
      if currentGenerationId.Some? && items[0].generationId < currentGenerationId.value {
        return NoEffect, Continue(a.(phase := Draining(items[1..])));
      }
      effect := HandleStreamEnvelope(items[0], now);
      if effect.VerifyHistorical? {
        return NoEffect, Continue(a.(phase := DrainVerifying(effect.envelope, effect.token, items[1..])));
      }
      next := Continue(a.(phase := Draining(items[1..])));
    }
  }
}
