/** Two things the pair state machine does not promise, although its comments suggest them:
    a recovery need not terminate, and a recovered batch may be handed off early. Each is
    shown by a run from a new machine, with the exact condition under which it happens.
    Neither touches the safety results. */
module PairStateLimits {
  import opened Common
  import opened WorkingCandle
  import opened PairState
  import opened PairStateTheorems
  import opened Scenario

  // ------------------------------------------------------- when the queue rests

  /** A minute beyond the watermark that is not its successor. */
  predicate Leaps(m: Machine, t: int) {
    m.latest.Some? && t > m.latest.value && t != m.latest.value + MINUTE_MS
  }

  predicate Superseded(m: Machine, t: int) {
    m.latest.Some? && t <= m.latest.value
  }

  predicate Shut(m: Machine) {
    m.stopped || m.flight.Some?
  }

  ghost function FirstQueued(m: Machine): (t: int)
    requires m.readyToCommit != map[]
    ensures t in m.readyToCommit && forall u <- m.readyToCommit :: t <= u
  {
    assert m.readyToCommit.Keys != {};
    Least(m.readyToCommit.Keys)
  }

  /** Nothing can leave the queue: it is empty, shut, or its first minute is blocked or leaps. */
  ghost predicate Resting(m: Machine) {
    || m.stopped || m.flight.Some? || m.readyToCommit == map[]
    || FaultBlocks(m, m.readyToCommit[FirstQueued(m)].origin)
    || Leaps(m, FirstQueued(m))
  }

  lemma {:induction false} DrainRestsExactly(m: Machine, now: int)
    ensures Drain(m, now).readyToCommit == m.readyToCommit <==> Resting(m)
  {
    if !Resting(m) {
      var t := FirstQueued(m);
      var c := m.readyToCommit[t];
      if m.latest.Some? && t <= m.latest.value {
        DrainNeverRefills(DropSuperseded(m, t), now);
      } else {
        StartTouches(m.(readyToCommit := m.readyToCommit - {t}), c, now);
      }
      hide StartCommit;
      assert t !in Drain(m, now).readyToCommit;
    }
  }

  /** One step of the drain. */
  lemma {:induction false} DrainStep(m: Machine, now: int)
    ensures Shut(m) || m.readyToCommit == map[] ==> Drain(m, now) == m
    ensures !Shut(m) && m.readyToCommit != map[] ==>
              var t := FirstQueued(m);
              Drain(m, now) == if FaultBlocks(m, m.readyToCommit[t].origin) then ResolveAllReady(m)
                               else if Superseded(m, t) then Drain(DropSuperseded(m, t), now)
                               else if Leaps(m, t) then m
                               else StartCommit(m.(readyToCommit := m.readyToCommit - {t}), m.readyToCommit[t], now)
  {
    hide StartCommit, ResolveSettled, ResolveAllReady, FaultBlocks;
  }

  /** Draining adds neither candidates nor waiters. */
  lemma {:induction false} DrainNeverRefills(m: Machine, now: int)
    ensures forall t <- Drain(m, now).readyToCommit :: t in m.readyToCommit
    ensures forall id <- Drain(m, now).waiters :: id in m.waiters
    decreases |m.readyToCommit|
  {
    if !m.stopped && m.flight.None? && m.readyToCommit != map[] {
      var t := FirstQueued(m);
      StartTouches(m.(readyToCommit := m.readyToCommit - {t}), m.readyToCommit[t], now);
      DropShrinks(m, t);
      DrainStep(m, now);
      hide StartCommit, DropSuperseded, Drain, FaultBlocks;
      if !FaultBlocks(m, m.readyToCommit[t].origin) && Superseded(m, t) {
        DrainNeverRefills(DropSuperseded(m, t), now);
      }
    }
  }

  lemma {:induction false} DropShrinks(m: Machine, t: int)
    requires t in m.readyToCommit
    ensures var m1 := DropSuperseded(m, t);
            && (forall u <- m1.readyToCommit :: u in m.readyToCommit)
            && (forall id <- m1.waiters :: id in m.waiters)
            && |m1.readyToCommit| < |m.readyToCommit|
  {
    assert m.readyToCommit == (m.readyToCommit - {t})[t := m.readyToCommit[t]];
  }

  // ------------------------------------------------- whether a recovery proceeds

  /** The minute a gap asks its recovery to start from. */
  function GapFrom(m: Machine): int
    requires m.latest.Some?
  {
    CurrentOpenTime(m.working, m.pair).GetOr(m.latest.value + MINUTE_MS)
  }

  /** The packet that opens the gap contradicts earlier evidence, or there is no room for it. */
  predicate BufferingFaults(m: Machine, e: Envelope, cfg: Config) {
    var i := BufferIndex(m.recoveryBuffer, e.openTimeMs);
    || Observe(m.working, SnapshotOf(e)).1.Some?
    || (if i < |m.recoveryBuffer|
        then e.providerEventTimeMs == m.recoveryBuffer[i].providerEventTimeMs && e.values != m.recoveryBuffer[i].values
        else |m.recoveryBuffer| >= cfg.maxRecoveryBuffer)
  }

  /** A machine that is not recovering accepts a packet by opening a gap. */
  ghost predicate OpensGap(m: Machine, e: Envelope, now: int, cfg: Config) {
    m.latest.Some? && !m.recoveryActive && HandleEnvelope(m, e, now, cfg).1.RequestRecovery?
  }

  /** A recovery has taken over and waits for its candles. */
  predicate AwaitsRecovery(g: Machine) {
    !g.stopped && g.latest.Some? && g.readyToCommit == map[] && g.recoveryActive && g.emptyReconciliation.None?
  }

  lemma {:induction false} GapTakesOver(m: Machine, e: Envelope, now: int, cfg: Config)
    requires OpensGap(m, e, now, cfg)
    ensures var (g, effect) := HandleEnvelope(m, e, now, cfg);
            && effect == RequestRecovery(GapFrom(m), e.openTimeMs - MINUTE_MS, g.recoveryEpoch)
            && AwaitsRecovery(g) && g.pair == m.pair && g.latest == m.latest && g.flight == m.flight
            && (g.truthFault == NONE <==> !BufferingFaults(m, e, cfg))
            && (g.truthFault == NONE || Absorbing(g.truthFault))
  {
    var m1 := m.(generationId := Some(e.generationId));
    GapHandled(m, e, now, cfg);
    var m2 := EnterRecovery(m1);
    assert AwaitsRecovery(m2) && m2.pair == m.pair && m2.latest == m.latest && m2.flight == m.flight && m2.truthFault == NONE;
    assert m2.working == m.working && m2.recoveryBuffer == m.recoveryBuffer;
    hide EnterRecovery, BufferEnvelope, HandleEnvelope;
    BufferingLatchesExactly(m2, e, cfg);
  }

  lemma {:induction false} GapHandled(m: Machine, e: Envelope, now: int, cfg: Config)
    requires OpensGap(m, e, now, cfg)
    ensures !m.stopped && m.truthFault == NONE
    ensures HandleEnvelope(m, e, now, cfg) == OpenGap(m.(generationId := Some(e.generationId)), e, GapFrom(m), cfg)
  {
    hide OpenGap, ApplyWorking, ScheduleFinalization, AcceptRecovering, TimeSafe;
  }

  lemma {:induction false} BufferingLatchesExactly(m: Machine, e: Envelope, cfg: Config)
    requires m.truthFault == NONE && m.readyToCommit == map[]
    ensures var m' := BufferEnvelope(m, e, cfg);
            && (m'.truthFault == NONE <==> !BufferingFaults(m, e, cfg))
            && (m'.truthFault == NONE || Absorbing(m'.truthFault))
            && m'.readyToCommit == map[] && m'.pair == m.pair && m'.latest == m.latest && m'.flight == m.flight
            && m'.stopped == m.stopped && m'.recoveryActive == m.recoveryActive
            && m'.emptyReconciliation == m.emptyReconciliation && m'.recoveryEpoch == m.recoveryEpoch
  {
    var m1 := m.(working := Observe(m.working, SnapshotOf(e)).0);
    LatchingTouches(m1, CANONICAL_CONFLICT);
    LatchingTouches(m1, BUFFER_OVERFLOW);
    hide Observe, LatchFatal, BufferEnvelope, BufferingFaults;
    BufferingCases(m, e, cfg);
  }

  lemma {:induction false} BufferingCases(m: Machine, e: Envelope, cfg: Config)
    ensures var m' := BufferEnvelope(m, e, cfg);
            var m1 := m.(working := Observe(m.working, SnapshotOf(e)).0);
            if BufferingFaults(m, e, cfg) then m' == LatchFatal(m1, CANONICAL_CONFLICT) || m' == LatchFatal(m1, BUFFER_OVERFLOW)
            else m' == m1.(recoveryBuffer := m'.recoveryBuffer)
  {
    hide Observe, LatchFatal;
  }

  lemma {:induction false} LatchingTouches(m: Machine, fault: TruthFault)
    ensures var m' := LatchFatal(m, fault);
            && m'.truthFault == fault && m'.readyToCommit == map[]
            && m'.pair == m.pair && m'.latest == m.latest && m'.flight == m.flight && m'.stopped == m.stopped
            && m'.recoveryActive == m.recoveryActive && m'.emptyReconciliation == m.emptyReconciliation
            && m'.recoveryEpoch == m.recoveryEpoch
  {
  }

  /** A recovery that holds back minute after minute for the watermark's successor, which is not coming:
      `id` awaits a queued minute, and every queued minute leaps. */
  ghost predicate Stalled(m: Machine, id: nat) {
    && !m.stopped && m.truthFault == NONE && m.flight.None? && m.recoveryActive && m.emptyReconciliation.None?
    && id in m.waiters && id < m.nextWaiter && m.waiters[id] in m.readyToCommit
    && forall t <- m.readyToCommit :: Leaps(m, t)
  }

  function ApplicationOf(g: Machine, candles: seq<Candle>): Application {
    Application(CurrentToken(g), Enqueuing(candles, {}))
  }

  /** What becomes of the first candle of a recovery. */
  lemma {:induction false} FirstCandle(g: Machine, candle: Candle, rest: seq<Candle>, now: int)
    requires AwaitsRecovery(g) && candle.pair == g.pair && (g.truthFault == NONE || Absorbing(g.truthFault))
    ensures var m' := EnqueueRecovered(g, ApplicationOf(g, [candle] + rest), now).machine;
            && (StartsWrite(g, m') <==> g.truthFault == NONE && g.flight.None? && candle.openTimeMs == g.latest.value + MINUTE_MS)
            && (Stalled(m', g.nextWaiter) <==> g.truthFault == NONE && g.flight.None? && Leaps(g, candle.openTimeMs))
  {
    var a := ApplicationOf(g, [candle] + rest);
    var t := candle.openTimeMs;
    assert ([candle] + rest)[0] == candle;
    if t > g.latest.value {
      var queued := Waiting(g, t).(readyToCommit := map[t := Recovered(a, candle)]);
      assert g.readyToCommit[t := Recovered(a, candle)] == queued.readyToCommit;
      assert EnqueueRecovered(g, a, now).machine == Drain(queued, now);
      OnlyCandidate(queued, t, now);
      hide Drain, EnqueueRecovered;
      assert queued.waiters[g.nextWaiter] == t;
    }
  }

  lemma {:induction false} OnlyCandidate(m: Machine, t: int, now: int)
    requires m.readyToCommit.Keys == {t} && !m.stopped && (m.truthFault == NONE || Absorbing(m.truthFault))
    requires var c := m.readyToCommit[t]; c.origin == REST_RECOVERY && c.prebuilt.Some? && TokenValid(m, c.token, c.origin)
    requires m.latest.Some? && t > m.latest.value
    ensures var m' := Drain(m, now);
            && (m.flight.Some? || (m.truthFault == NONE && Leaps(m, t)) ==> m' == m)
            && (m.flight.None? && m.truthFault == NONE && !Leaps(m, t) ==> Writing(m'))
            && m'.truthFault == m.truthFault && (m.truthFault != NONE ==> m'.flight == m.flight)
  {
    assert m.readyToCommit != map[];
    assert FirstQueued(m) == t;
    StartTouches(m.(readyToCommit := m.readyToCommit - {t}), m.readyToCommit[t], now);
  }

  /** Which recoveries get going: the first candle that a gap asks for starts its write exactly if no commit is
      in flight, the gap's own packet raised no fault, and no minute below the forming one is still uncommitted. */
  lemma {:induction false} GapRecoveryProceedsExactly(m: Machine, e: Envelope, now: int, candle: Candle, rest: seq<Candle>,
                                                      later: int, cfg: Config)
    requires OpensGap(m, e, now, cfg)
    requires candle.pair == m.pair && candle.openTimeMs == HandleEnvelope(m, e, now, cfg).1.fromMs
    ensures var g := HandleEnvelope(m, e, now, cfg).0;
            var m' := EnqueueRecovered(g, ApplicationOf(g, [candle] + rest), later).machine;
            var forming := CurrentOpenTime(m.working, m.pair);
            && (StartsWrite(g, m') <==> m.flight.None? && !BufferingFaults(m, e, cfg)
                                        && (forming.None? || forming == Some(m.latest.value + MINUTE_MS)))
            && (Stalled(m', g.nextWaiter) <==> m.flight.None? && !BufferingFaults(m, e, cfg)
                                               && forming.Some? && Leaps(m, forming.value))
  {
    var g := HandleEnvelope(m, e, now, cfg).0;
    GapTakesOver(m, e, now, cfg);
    hide HandleEnvelope, EnqueueRecovered, BufferingFaults, Stalled;
    FirstCandle(g, candle, rest, later);
  }

  /** The watermark once the commit in flight has been answered. */
  function WatermarkAfter(m: Machine, acknowledged: bool): int
    requires m.latest.Some? && m.flight.Some?
  {
    var f := m.flight.value;
    if f.Persisting? && acknowledged && TokenValid(m, f.candidate.token, f.candidate.origin) then f.candle.openTimeMs
    else m.latest.value
  }

  /** The commit in flight, if it has not ended yet, succeeds. */
  predicate Succeeded(m: Machine, acknowledged: bool)
    requires m.flight.Some?
  {
    m.flight.value.Persisting? ==> acknowledged
  }

  /** The answer to the commit in flight, and its `finally` clause. */
  ghost function AfterCommit(m: Machine, acknowledged: bool, now: int): Machine {
    CommitFinally(CommitSettled(m, acknowledged), now)
  }

  /** If a commit is in flight when the gap opens, the recovery gets going when it ends: the first candle then starts its
      write exactly if no fault has appeared and the candle is the successor of the watermark that the commit leaves. It stalls
      exactly if it leaps over that successor, unless the commit was for the candle's own minute and releases its waiter. */
  lemma {:induction false} GapRecoveryAfterCommitExactly(m: Machine, e: Envelope, now: int, candle: Candle, rest: seq<Candle>,
                                                         later: int, acknowledged: bool, end: int, cfg: Config)
    requires Invariant(m) && m.flight.Some? && OpensGap(m, e, now, cfg)
    requires candle.pair == m.pair && candle.openTimeMs == HandleEnvelope(m, e, now, cfg).1.fromMs
    ensures var g := HandleEnvelope(m, e, now, cfg).0;
            var m' := AfterCommit(EnqueueRecovered(g, ApplicationOf(g, [candle] + rest), later).machine, acknowledged, end);
            && g.latest.Some? && g.flight.Some?
            && var watermark := WatermarkAfter(g, acknowledged);
               var sound := !BufferingFaults(m, e, cfg) && Succeeded(g, acknowledged);
               && (Writing(m') <==> sound && GapFrom(m) == watermark + MINUTE_MS)
               && (Stalled(m', g.nextWaiter) <==>
                     sound && GapFrom(m) > watermark && GapFrom(m) != watermark + MINUTE_MS
                     && GapFrom(m) != m.flight.value.candidate.openTimeMs)
  {
    hide HandleEnvelope, EnqueueRecovered, BufferingFaults, Stalled, AfterCommit, Filed, WatermarkAfter, ApplicationOf;
    var g := HandleEnvelope(m, e, now, cfg).0;
    GapTakesOver(m, e, now, cfg);
    FirstCandleAfterCommit(g, candle, rest, later, acknowledged, end);
    assert candle.openTimeMs == GapFrom(m);
    assert g.truthFault == NONE <==> !BufferingFaults(m, e, cfg);
    hide WatermarkAfter, ApplicationOf, GapFrom, OpensGap;
  }

  lemma {:induction false} FirstCandleAfterCommit(g: Machine, candle: Candle, rest: seq<Candle>, later: int, acknowledged: bool, end: int)
    requires AwaitsRecovery(g) && candle.pair == g.pair && (g.truthFault == NONE || Absorbing(g.truthFault))
    requires g.flight.Some? && (Writing(g) ==> FlightFits(g.flight.value, g.latest, g.pair))
    ensures var m' := AfterCommit(EnqueueRecovered(g, ApplicationOf(g, [candle] + rest), later).machine, acknowledged, end);
            var watermark, t := WatermarkAfter(g, acknowledged), candle.openTimeMs;
            var sound := g.truthFault == NONE && Succeeded(g, acknowledged);
            && (Writing(m') <==> sound && t == watermark + MINUTE_MS)
            && (Stalled(m', g.nextWaiter) <==>
                  sound && t > watermark && t != watermark + MINUTE_MS && t != g.flight.value.candidate.openTimeMs)
  {
    var a := ApplicationOf(g, [candle] + rest);
    var t := candle.openTimeMs;
    assert ([candle] + rest)[0] == candle;
    if t > g.latest.value {
      var queued := Waiting(g, t).(readyToCommit := map[t := Recovered(a, candle)]);
      assert g.readyToCommit[t := Recovered(a, candle)] == queued.readyToCommit;
      assert EnqueueRecovered(g, a, later).machine == queued;
      hide Drain, EnqueueRecovered, AfterCommit, Stalled;
      assert queued.waiters[g.nextWaiter] == t;
      QueuedBehindCommit(queued, t, g.nextWaiter, acknowledged, end);
      assert WatermarkAfter(queued, acknowledged) == WatermarkAfter(g, acknowledged);
    } else {
      assert EnqueueRecovered(g, a, later).machine == g;
      NothingQueued(g, acknowledged, end);
      hide EnqueueRecovered, AfterCommit;
      assert !Stalled(AfterCommit(g, acknowledged, end), g.nextWaiter);
      assert WatermarkAfter(g, acknowledged) >= g.latest.value;
    }
  }

  lemma {:induction false} NothingQueued(m: Machine, acknowledged: bool, now: int)
    requires m.flight.Some? && m.readyToCommit == map[]
    ensures AfterCommit(m, acknowledged, now).flight.None? && AfterCommit(m, acknowledged, now).readyToCommit == map[]
  {
    hide Deleted;
  }

  /** One recovered minute, queued and awaited behind the commit in flight. */
  lemma {:induction false} QueuedBehindCommit(m: Machine, t: int, id: nat, acknowledged: bool, now: int)
    requires m.flight.Some? && m.latest.Some? && !m.stopped && (m.truthFault == NONE || Absorbing(m.truthFault))
    requires m.recoveryActive && m.emptyReconciliation.None? && id in m.waiters && m.waiters[id] == t && id < m.nextWaiter
    requires m.readyToCommit.Keys == {t} && t > m.latest.value
    requires var c := m.readyToCommit[t]; c.origin == REST_RECOVERY && c.prebuilt.Some? && TokenValid(m, c.token, c.origin)
    requires Writing(m) ==> FlightFits(m.flight.value, m.latest, m.pair)
    ensures var m' := AfterCommit(m, acknowledged, now);
            var watermark := WatermarkAfter(m, acknowledged);
            var sound := m.truthFault == NONE && Succeeded(m, acknowledged);
            && (Writing(m') <==> sound && t == watermark + MINUTE_MS)
            && (Stalled(m', id) <==>
                  sound && t > watermark && t != watermark + MINUTE_MS && t != m.flight.value.candidate.openTimeMs)
  {
    var m1 := CommitEnded(m, acknowledged);
    var watermark := WatermarkAfter(m, acknowledged);
    assert AfterCommit(m, acknowledged, now) == Drain(m1, now);
    EndingCommit(m, acknowledged);
    DrainStep(m1, now);
    hide AfterCommit, CommitEnded, Drain, StartCommit;
    if t > watermark {
      OnlyCandidate(m1, t, now);
    } else if m1.truthFault == NONE {
      assert FirstQueued(m1) == t;
      assert DropSuperseded(m1, t).readyToCommit == map[];
      DrainStep(DropSuperseded(m1, t), now);
    } else {
      assert FirstQueued(m1) == t;
    }
  }

  /** The machine just before its queue is drained again. */
  function CommitEnded(m: Machine, acknowledged: bool): Machine
    requires m.flight.Some?
  {
    var m1, u := CommitSettled(m, acknowledged), m.flight.value.candidate.openTimeMs;
    ResolveSettled(m1.(flight := None, pendingFinalizations := m1.pendingFinalizations - {u}), u)
  }

  lemma {:induction false} EndingCommit(m: Machine, acknowledged: bool)
    requires m.flight.Some? && m.latest.Some? && (m.truthFault == NONE || Absorbing(m.truthFault))
    requires Writing(m) ==> FlightFits(m.flight.value, m.latest, m.pair)
    ensures var m1 := CommitEnded(m, acknowledged);
            && m1.readyToCommit == m.readyToCommit && m1.flight.None? && m1.stopped == m.stopped
            && m1.latest == Some(WatermarkAfter(m, acknowledged)) && CurrentToken(m1) == CurrentToken(m)
            && (m1.truthFault == NONE <==> m.truthFault == NONE && Succeeded(m, acknowledged))
            && (m1.truthFault == NONE || Absorbing(m1.truthFault))
            && m1.recoveryActive == m.recoveryActive && m1.emptyReconciliation == m.emptyReconciliation && m1.nextWaiter == m.nextWaiter
            && (forall id <- m.waiters :: id in m1.waiters <==> m.waiters[id] != m.flight.value.candidate.openTimeMs)
            && (forall id <- m1.waiters :: id in m.waiters && m1.waiters[id] == m.waiters[id])
  {
  }

  // ----------------------------------------------------- how long a stall lasts

  /** Everything short of a reconnect, a new recovery, an empty reconciliation, a stop or the missing minute itself. */
  predicate Unhelpful(m: Machine, s: Stimulus, id: nat) {
    match s
    case RecoveryEntered => false
    case Reconnected(_) => false
    case HandoffAwaited(_) => false
    case Stopped => false
    case ApplicationResumed(a, _, _) =>
      (match a.phase
       case Enqueuing(rest, _) => rest != [] && m.latest != Some(rest[0].openTimeMs - MINUTE_MS)
       case CheckingOverlap(_, _, _) => true
       case Settling(awaiting) => id in awaiting
       case _ => false)
    case _ => true
  }

  /** Nothing of that kind ends a stall, unless by a fault. */
  lemma {:induction false} StallLasts(m: Machine, s: Stimulus, id: nat, cfg: Config)
    requires Stalled(m, id) && Unhelpful(m, s, id) && Enabled(m, s)
    ensures var m' := React(m, s, cfg).machine; Stalled(m', id) || m'.truthFault != NONE
  {
    match s
    case Packet(e, now) => PacketStalls(m, e, now, id, cfg);
    case ApplicationResumed(a, answer, now) =>
      if a.phase.Enqueuing? {
        CandleStalls(m, a, now, id);
      }
    case _ =>
  }

  lemma {:induction false} PacketStalls(m: Machine, e: Envelope, now: int, id: nat, cfg: Config)
    requires Stalled(m, id)
    ensures var m' := HandleEnvelope(m, e, now, cfg).0; Stalled(m', id) || m'.truthFault != NONE
  {
    var m1 := m.(generationId := Some(e.generationId));
    var m2 := m1.(working := Observe(m1.working, SnapshotOf(e)).0);
    LatchingTouches(m2, CANONICAL_CONFLICT);
    LatchingTouches(m2, BUFFER_OVERFLOW);
    BufferingCases(m1, e, cfg);
    hide Observe, LatchFatal, TimeSafe, AcceptLive, BufferEnvelope, BufferingFaults;
  }

  lemma {:induction false} CandleStalls(m: Machine, a: Application, now: int, id: nat)
    requires Stalled(m, id) && a.phase.Enqueuing? && a.phase.rest != []
    requires m.latest != Some(a.phase.rest[0].openTimeMs - MINUTE_MS)
    ensures var m' := EnqueueRecovered(m, a, now).machine; Stalled(m', id) || m'.truthFault != NONE
  {
    var candle := a.phase.rest[0];
    var t := candle.openTimeMs;
    LatchingTouches(m, CANONICAL_CONFLICT);
    var queued := Waiting(m, t).(readyToCommit := m.readyToCommit[t := Recovered(a, candle)]);
    assert Leaps(m, m.waiters[id]);
    if t > m.latest.value {
      assert t in queued.readyToCommit;
      assert Stalled(queued, id);
      LeapersStay(queued, now);
    }
    hide Drain, LatchFatal;
  }

  lemma {:induction false} LeapersStay(m: Machine, now: int)
    requires m.readyToCommit != map[] && m.truthFault == NONE && forall t <- m.readyToCommit :: Leaps(m, t)
    ensures Drain(m, now) == m
  {
    var t := FirstQueued(m);
    assert Leaps(m, t);
  }

  /** Over any run of that kind the recovery stays stalled until a fault appears. */
  lemma {:induction false} StallOutlivesTheRun(ms: seq<Machine>, ss: seq<Stimulus>, cfg: Config, id: nat, j: nat)
    requires Lives(ms, ss, cfg) && j < |ms| && Stalled(ms[0], id)
    requires forall i :: 0 <= i < j ==> Unhelpful(ms[i], ss[i], id)
    requires forall i :: 0 <= i <= j ==> ms[i].truthFault == NONE
    ensures Stalled(ms[j], id)
  {
    if j > 0 {
      StallOutlivesTheRun(ms, ss, cfg, id, j - 1);
      hide React, Stalled, Enabled, Unhelpful;
      assert LivesOn(ms[j - 1], ss[j - 1], cfg, ms[j]);
      StallLasts(ms[j - 1], ss[j - 1], id, cfg);
    }
  }

  /** A run in which it happens: minute 10 is in its grace period when the packet of minute 14 arrives. The gap drops
      minute 10 and asks for minutes 11 to 13 only, so the watermark stays at minute 9 and minute 11 waits. */
  lemma {:induction false} DroppedGraceStallsRecovery() returns (ms: seq<Machine>, ss: seq<Stimulus>)
    ensures Lives(ms, ss, DEFAULTS) && ms[0] == NewMachine(PAIR, Some(Minute(9))) && |ss| == 4
    ensures ss[..3] == [Packet(PacketOf(10), Now(10)), Packet(PacketOf(11), Now(11)), Packet(PacketOf(14), Now(14))]
    ensures React(ms[2], ss[2], DEFAULTS).effect == RequestRecovery(Minute(11), Minute(13), ms[3].recoveryEpoch)
    ensures ss[3] == ApplicationResumed(ApplicationOf(ms[3], RECOVERED), Missing, Now(14))
    ensures Stalled(ms[4], ms[3].nextWaiter)
  {
    var m1, m2 := TwoPackets();
    var m0, e := NewMachine(PAIR, Some(Minute(9))), PacketOf(14);
    GapAfterGrace(m2);
    ms := [m0, m1, m2];
    ss := [Packet(PacketOf(10), Now(10)), Packet(PacketOf(11), Now(11))];
    var gap := Packet(e, Now(14));
    hide React, Enabled, NewMachine, PacketOf, Invariant, HandleEnvelope, Forms, OpensGap, GapFrom, Stalled;
    PacketReacts(m2, e, Now(14), DEFAULTS);
    GapTakesOver(m2, e, Now(14), DEFAULTS);
    var m3 := LifeGrows(ms, ss, gap, DEFAULTS);
    ms, ss := ms + [m3], ss + [gap];
    var applied := ApplicationResumed(ApplicationOf(m3, RECOVERED), Missing, Now(14));
    MinuteElevenStalls(m2, m3);
    ApplicationReacts(m3, RECOVERED, Missing, Now(14), DEFAULTS);
    var m4 := LifeGrows(ms, ss, applied, DEFAULTS);
    ms, ss := ms + [m4], ss + [applied];
  }

  /** The life of a new machine after its first two packets. */
  lemma {:induction false} TwoPackets() returns (m1: Machine, m2: Machine)
    ensures Forms(m2, 11, Some(Minute(9)))
    ensures 0 in m2.timers && m2.timers[0] == Timer(Minute(10), ISSUED) && Minute(10) in m2.pendingFinalizations
    ensures Key(PAIR, Minute(10)) in m2.working.working && m2.working.working[Key(PAIR, Minute(10))] == SnapshotOf(PacketOf(10))
    ensures var m0 := NewMachine(PAIR, Some(Minute(9)));
            Lives([m0, m1, m2], [Packet(PacketOf(10), Now(10)), Packet(PacketOf(11), Now(11))], DEFAULTS)
  {
    var m0 := NewMachine(PAIR, Some(Minute(9)));
    var s0, s1 := Packet(PacketOf(10), Now(10)), Packet(PacketOf(11), Now(11));
    hide *;
    m1, m2 := TwoReactions();
    PacketReacts(m0, PacketOf(10), Now(10), DEFAULTS);
    PacketReacts(m1, PacketOf(11), Now(11), DEFAULTS);
    NewLife(PAIR, Some(Minute(9)), DEFAULTS);
    var m1' := LifeGrows([m0], [], s0, DEFAULTS);
    assert [m0] + [m1] == [m0, m1] && [] + [s0] == [s0];
    var m2' := LifeGrows([m0, m1], [s0], s1, DEFAULTS);
    assert [m0, m1] + [m2] == [m0, m1, m2] && [s0] + [s1] == [s0, s1];
  }

  lemma {:induction false} TwoReactions() returns (m1: Machine, m2: Machine)
    ensures m1 == HandleEnvelope(NewMachine(PAIR, Some(Minute(9))), PacketOf(10), Now(10), DEFAULTS).0
    ensures m2 == HandleEnvelope(m1, PacketOf(11), Now(11), DEFAULTS).0
    ensures Forms(m2, 11, Some(Minute(9)))
    ensures 0 in m2.timers && m2.timers[0] == Timer(Minute(10), ISSUED) && Minute(10) in m2.pendingFinalizations
    ensures Key(PAIR, Minute(10)) in m2.working.working && m2.working.working[Key(PAIR, Minute(10))] == SnapshotOf(PacketOf(10))
  {
    hide HandleEnvelope, Forms, NewMachine;
    m1 := FirstPacket(Some(Minute(9)));
    m2 := NextPacket(m1, 10, Some(Minute(9)));
  }

  lemma {:induction false} PacketReacts(m: Machine, e: Envelope, now: int, cfg: Config)
    ensures var s := Packet(e, now);
            && Enabled(m, s) && React(m, s, cfg).machine == HandleEnvelope(m, e, now, cfg).0
            && React(m, s, cfg).effect == HandleEnvelope(m, e, now, cfg).1
  {
    hide HandleEnvelope;
  }

  lemma {:induction false} ApplicationReacts(m: Machine, candles: seq<Candle>, answer: ReadAnswer, now: int, cfg: Config)
    ensures var a := ApplicationOf(m, candles);
            var s := ApplicationResumed(a, answer, now);
            Enabled(m, s) && React(m, s, cfg).machine == EnqueueRecovered(m, a, now).machine
  {
    hide EnqueueRecovered;
  }

  lemma {:induction false} MinuteElevenStalls(m: Machine, g: Machine)
    requires Forms(m, 11, Some(Minute(9))) && g == HandleEnvelope(m, PacketOf(14), Now(14), DEFAULTS).0
    ensures Stalled(EnqueueRecovered(g, ApplicationOf(g, RECOVERED), Now(14)).machine, g.nextWaiter)
  {
    GapAfterGrace(m);
    hide HandleEnvelope, EnqueueRecovered, Stalled, BufferingFaults, OpensGap;
    GapTakesOver(m, PacketOf(14), Now(14), DEFAULTS);
    assert RECOVERED == [CandleOf(11)] + [CandleOf(12), CandleOf(13)];
    GapRecoveryProceedsExactly(m, PacketOf(14), Now(14), CandleOf(11), [CandleOf(12), CandleOf(13)], Now(14), DEFAULTS);
  }

  lemma {:induction false} NewLife(pair: string, baseline: Option<int>, cfg: Config)
    ensures Lives([NewMachine(pair, baseline)], [], cfg)
  {
  }

  /** One more reaction prolongs a life. */
  lemma {:induction false} LifeGrows(ms: seq<Machine>, ss: seq<Stimulus>, s: Stimulus, cfg: Config) returns (m': Machine)
    requires Lives(ms, ss, cfg) && Enabled(ms[|ss|], s)
    ensures m' == React(ms[|ss|], s, cfg).machine && Lives(ms + [m'], ss + [s], cfg)
  {
    hide React, Enabled, Invariant;
    m' := React(ms[|ss|], s, cfg).machine;
    var (ms', ss') := (ms + [m'], ss + [s]);
    forall j | 0 <= j < |ss'| ensures LivesOn(ms'[j], ss'[j], cfg, ms'[j + 1]) {
      if j < |ss| {
        assert LivesOn(ms[j], ss[j], cfg, ms[j + 1]);
      } else {
        assert ms'[j] == ms[|ss|] && ms'[j + 1] == m' && ss'[j] == s;
      }
    }
  }

  const RECOVERED: seq<Candle> := [CandleOf(11), CandleOf(12), CandleOf(13)]

  lemma {:induction false} GapAfterGrace(m: Machine)
    requires Forms(m, 11, Some(Minute(9)))
    ensures OpensGap(m, PacketOf(14), Now(14), DEFAULTS) && GapFrom(m) == Minute(11)
    ensures !BufferingFaults(m, PacketOf(14), DEFAULTS)
  {
    assert EvidenceAt(m.working, Key(PAIR, Minute(14))) == Evidence(map[], None);
    hide ApplyWorking, ScheduleFinalization, OpenGap, AcceptRecovering;
  }

  // --------------------------------------------------- whether a batch settles early

  /** The candidate still sits in the queue, or its commit has started and not ended. */
  ghost predicate Outstanding(m: Machine, c: Candidate) {
    (c.openTimeMs in m.readyToCommit && m.readyToCommit[c.openTimeMs] == c) || (m.flight.Some? && m.flight.value.candidate == c)
  }

  /** A fault blocks the minute, or an earlier one that it has to wait for. */
  ghost predicate Blocked(m: Machine, t: int) {
    exists u <- m.readyToCommit :: u <= t && FaultBlocks(m, m.readyToCommit[u].origin)
  }

  lemma {:induction false} DrainPicksFromTheQueue(m: Machine, now: int)
    requires Invariant(m) && m.flight.None? && Drain(m, now).flight.Some?
    ensures var c := Drain(m, now).flight.value.candidate; c.openTimeMs in m.readyToCommit && m.readyToCommit[c.openTimeMs] == c
    decreases |m.readyToCommit|
  {
    if !m.stopped && m.readyToCommit != map[] {
      var t := FirstQueued(m);
      StartTouches(m.(readyToCommit := m.readyToCommit - {t}), m.readyToCommit[t], now);
      DropShrinks(m, t);
      SupersededDrains(m, t, DropSuperseded(m, t));
      hide StartCommit, ResolveSettled, Invariant;
      if !FaultBlocks(m, m.readyToCommit[t].origin) && Superseded(m, t) {
        DrainPicksFromTheQueue(DropSuperseded(m, t), now);
      }
      assert CandidateFits(m.readyToCommit[t], t, m.pair) by {
        MinutesFit(m, t);
      }
    }
  }

  lemma {:induction false} MinutesFit(m: Machine, t: int)
    requires Invariant(m) && t in m.readyToCommit
    ensures CandidateFits(m.readyToCommit[t], t, m.pair) && m.readyToCommit[t].openTimeMs == t
  {
  }

  /** Of the queued minutes that no fault blocks, draining settles the superseded ones, and no other. */
  lemma {:induction false} DrainSettlesExactly(m: Machine, t: int, now: int)
    requires Invariant(m) && t in m.readyToCommit && !Blocked(m, t)
    ensures Outstanding(Drain(m, now), m.readyToCommit[t]) <==> Shut(m) || !Superseded(m, t)
    decreases |m.readyToCommit|
  {
    MinutesFit(m, t);
    if !Shut(m) {
      var u := FirstQueued(m);
      var m1 := DropSuperseded(m, u);
      StartTouches(m.(readyToCommit := m.readyToCommit - {u}), m.readyToCommit[u], now);
      DropShrinks(m, u);
      SupersededDrains(m, u, m1);
      assert !FaultBlocks(m, m.readyToCommit[u].origin);
      if Superseded(m, u) {
        assert Drain(m, now) == Drain(m1, now);
        DropUnblocks(m, u, t);
        hide StartCommit, ResolveSettled, Invariant, Drain, Blocked;
        if u == t {
          DrainNeverRefills(m1, now);
          if Drain(m1, now).flight.Some? {
            DrainPicksFromTheQueue(m1, now);
          }
        } else {
          DrainSettlesExactly(m1, t, now);
        }
      }
      hide StartCommit, ResolveSettled, Invariant;
    }
  }

  lemma {:induction false} DropUnblocks(m: Machine, u: int, t: int)
    requires u in m.readyToCommit && !Blocked(m, t)
    ensures var m1 := DropSuperseded(m, u);
            && !Blocked(m1, t) && m1.latest == m.latest && Shut(m1) == Shut(m) && u !in m1.readyToCommit
            && (u != t && t in m.readyToCommit ==> t in m1.readyToCommit && m1.readyToCommit[t] == m.readyToCommit[t])
            && (forall id <- m.waiters :: m.waiters[id] != u ==> id in m1.waiters && m1.waiters[id] == m.waiters[id])
  {
    var m1 := DropSuperseded(m, u);
    if v :| v in m1.readyToCommit && v <= t && FaultBlocks(m1, m1.readyToCommit[v].origin) {
      assert v in m.readyToCommit && FaultBlocks(m, m.readyToCommit[v].origin);
    }
  }

  /** As long as a queued minute is outstanding and unblocked, draining releases none of its waiters. */
  lemma {:induction false} DrainKeepsWaiters(m: Machine, id: nat, now: int)
    requires id in m.waiters && m.waiters[id] in m.readyToCommit && !Blocked(m, m.waiters[id])
    requires Shut(m) || !Superseded(m, m.waiters[id])
    ensures id in Drain(m, now).waiters
    decreases |m.readyToCommit|
  {
    if !Shut(m) {
      var u := FirstQueued(m);
      StartTouches(m.(readyToCommit := m.readyToCommit - {u}), m.readyToCommit[u], now);
      assert !FaultBlocks(m, m.readyToCommit[u].origin);
      if Superseded(m, u) {
        DropShrinks(m, u);
        DropUnblocks(m, u, m.waiters[id]);
        DrainKeepsWaiters(DropSuperseded(m, u), id, now);
      }
      hide StartCommit, ResolveSettled;
    }
  }

  /** The finished commit is the one for minute `t`. */
  predicate EndsCommitOf(m: Machine, t: int) {
    m.flight.Some? && m.flight.value.Returned? && m.flight.value.candidate.openTimeMs == t
  }

  /** `id` waits for a queued candidate that no fault blocks. */
  ghost predicate Awaiting(m: Machine, id: nat) {
    id in m.waiters && m.waiters[id] in m.readyToCommit && !Blocked(m, m.waiters[id])
  }

  /** The end of a commit releases `id` although the candidate it waits for is still outstanding. */
  ghost predicate ReleasedEarly(m: Machine, id: nat, now: int)
    requires Awaiting(m, id)
  {
    var m' := CommitFinally(m, now);
    id !in m'.waiters && Outstanding(m', m.readyToCommit[m.waiters[id]])
  }

  /** It happens exactly when the commit that ends was for the same minute and did not move the watermark to it. */
  lemma {:induction false} EarlyReleaseExactly(m: Machine, id: nat, now: int)
    requires Invariant(m)
    ensures Awaiting(m, id) ==>
              (ReleasedEarly(m, id, now) <==> EndsCommitOf(m, m.waiters[id]) && (m.stopped || !Superseded(m, m.waiters[id])))
  {
    if m.flight.Some? && m.flight.value.Returned? && Awaiting(m, id) {
      var t := m.waiters[id];
      var u := m.flight.value.candidate.openTimeMs;
      var m1 := ResolveSettled(m.(flight := None, pendingFinalizations := m.pendingFinalizations - {u}), u);
      EndingKeeps(m, m1, t);
      hide Invariant, Blocked, Outstanding, Drain;
      DrainSettlesExactly(m1, t, now);
      DrainNeverRefills(m1, now);
      if u != t && (m.stopped || !Superseded(m, t)) {
        DrainKeepsWaiters(m1, id, now);
      }
    }
  }

  lemma {:induction false} EndingKeeps(m: Machine, m1: Machine, t: int)
    requires Invariant(m) && m1 == m.(flight := None, pendingFinalizations := m1.pendingFinalizations, waiters := m1.waiters)
    ensures Invariant(m1) && Blocked(m1, t) == Blocked(m, t)
  {
    forall u <- m.readyToCommit ensures FaultBlocks(m1, m1.readyToCommit[u].origin) == FaultBlocks(m, m.readyToCommit[u].origin) {
    }
  }

  /** A run in which it happens: a reconnect outdates the commit of minute 10 while it is being written, and the
      recovery queues minute 10 anew. The outdated commit's end lets the recovery go on, and hand over to live
      packets, although its own write of minute 10 has only just begun. */
  lemma {:induction false} StaleCommitReleasesItsSuccessor() returns (ms: seq<Machine>, ss: seq<Stimulus>, id: nat)
    ensures Lives(ms, ss, DEFAULTS) && ms[0] == NewMachine(PAIR, Some(Minute(9))) && |ss| == 8
    ensures ss == [Packet(PacketOf(10), Now(10)), Packet(PacketOf(11), Now(11)), GraceTimer(0, Now(11)), Reconnected(2),
                   ApplicationResumed(Application(RENEWED, Enqueuing([CandleOf(10)], {})), Missing, Now(11)),
                   CommitAnswered(true), CommitCleanup(Now(12)),
                   ApplicationResumed(Application(RENEWED, Settling({id})), Missing, Now(12))]
    ensures Awaiting(ms[6], id) && ReleasedEarly(ms[6], id, Now(12))
    ensures ms[7].recoveryActive && !ms[8].recoveryActive
    ensures Writing(ms[8]) && ms[8].flight == ms[7].flight && ms[8].flight.value.candle == CandleOf(10)
  {
    hide *;
    var m1, m2 := TwoPackets();
    ms, ss := [NewMachine(PAIR, Some(Minute(9))), m1, m2], [Packet(PacketOf(10), Now(10)), Packet(PacketOf(11), Now(11))];
    var m3 := MinuteTenCommits(m2);
    ms, ss := LifeGoesOn(ms, ss, GraceTimer(0, Now(11)), m3);
    var m4 := ReconnectInterrupts(m3);
    ms, ss := LifeGoesOn(ms, ss, Reconnected(2), m4);
    id := m4.nextWaiter;
    var m5 := MinuteTenQueuedAnew(m4);
    ms, ss := LifeGoesOn(ms, ss, ApplicationResumed(Application(RENEWED, Enqueuing([CandleOf(10)], {})), Missing, Now(11)), m5);
    var m6, m7, m8 := OutdatedCommitEnds(m4, m5);
    ms, ss := LifeGoesOn(ms, ss, CommitAnswered(true), m6);
    ms, ss := LifeGoesOn(ms, ss, CommitCleanup(Now(12)), m7);
    ms, ss := LifeGoesOn(ms, ss, ApplicationResumed(Application(RENEWED, Settling({id})), Missing, Now(12)), m8);
  }

  const RENEWED: Token := Token(2, 2, Some(2))

  ghost predicate Follows(m: Machine, s: Stimulus, m': Machine) {
    Enabled(m, s) && m' == React(m, s, DEFAULTS).machine
  }

  lemma {:induction false} LifeGoesOn(ms: seq<Machine>, ss: seq<Stimulus>, s: Stimulus, m': Machine)
    returns (ms': seq<Machine>, ss': seq<Stimulus>)
    requires Lives(ms, ss, DEFAULTS) && |ms| == |ss| + 1 && Follows(ms[|ss|], s, m')
    ensures ms' == ms + [m'] && ss' == ss + [s] && |ms'| == |ss'| + 1 && Lives(ms', ss', DEFAULTS)
  {
    hide React, Enabled, Lives;
    var next := LifeGrows(ms, ss, s, DEFAULTS);
    ms', ss' := ms + [m'], ss + [s];
  }

  lemma {:induction false} MinuteTenCommits(m: Machine) returns (m': Machine)
    requires Forms(m, 11, Some(Minute(9)))
    requires 0 in m.timers && m.timers[0] == Timer(Minute(10), ISSUED) && Minute(10) in m.pendingFinalizations
    requires Key(PAIR, Minute(10)) in m.working.working
    requires m.working.working[Key(PAIR, Minute(10))] == SnapshotOf(PacketOf(10))
    ensures Follows(m, GraceTimer(0, Now(11)), m')
    ensures m'.flight == Some(Persisting(FIRST, CandleOf(10))) && Forms(m'.(flight := None), 11, Some(Minute(9)))
  {
    hide GraceElapsed, Forms, SnapshotOf, PacketOf;
    m' := CommitStarts(m, 11, Some(Minute(9)));
  }

  /** The reconnect has come and the outdated commit is still being written. */
  predicate Interrupted(m: Machine) {
    && m.pair == PAIR && m.latest == Some(Minute(9)) && m.truthFault == NONE && !m.stopped && m.readyToCommit == map[]
    && CurrentToken(m) == RENEWED && m.recoveryActive && m.recoveryBuffer == []
    && m.flight == Some(Persisting(FIRST, CandleOf(10)))
  }

  lemma {:induction false} ReconnectInterrupts(m: Machine) returns (m': Machine)
    requires m.flight == Some(Persisting(FIRST, CandleOf(10))) && Forms(m.(flight := None), 11, Some(Minute(9)))
    ensures Follows(m, Reconnected(2), m') && Interrupted(m')
  {
    hide HoldsEvidenceUpTo, ReconnectFrom;
    m' := ReconnectBarrier(m, 2);
  }

  function Renewed(): Candidate {
    Candidate(Minute(10), REST_RECOVERY, RENEWED, Some(CandleOf(10)))
  }

  function QueuedAnew(m: Machine): Machine {
    m.(waiters := m.waiters[m.nextWaiter := Minute(10)], nextWaiter := m.nextWaiter + 1,
       readyToCommit := map[Minute(10) := Renewed()])
  }

  lemma {:induction false} MinuteTenQueuedAnew(m: Machine) returns (m': Machine)
    requires Interrupted(m)
    ensures Follows(m, ApplicationResumed(Application(RENEWED, Enqueuing([CandleOf(10)], {})), Missing, Now(11)), m')
    ensures m' == QueuedAnew(m)
  {
    m' := QueuedAnew(m);
    assert m.readyToCommit[Minute(10) := Renewed()] == m'.readyToCommit;
  }

  /** The outdated commit has returned; minute 10 is queued anew and awaited. */
  ghost predicate Outdated(m: Machine, id: nat) {
    && m.pair == PAIR && m.latest == Some(Minute(9)) && m.truthFault == NONE && !m.stopped
    && m.readyToCommit == map[Minute(10) := Renewed()] && id in m.waiters && m.waiters[id] == Minute(10)
    && CurrentToken(m) == RENEWED && m.recoveryActive && m.recoveryBuffer == [] && m.flight == Some(Returned(FIRST))
  }

  lemma {:induction false} RenewedWriteBegins(m: Machine, id: nat) returns (m': Machine)
    requires Outdated(m, id)
    ensures m' == CommitFinally(m, Now(12))
    ensures m'.flight == Some(Persisting(Renewed(), CandleOf(10))) && id !in m'.waiters
    ensures m'.pair == PAIR && m'.truthFault == NONE && !m'.stopped && CurrentToken(m') == RENEWED
    ensures m'.recoveryActive && m'.recoveryBuffer == [] && m'.latest == Some(Minute(9))
    ensures Awaiting(m, id) && ReleasedEarly(m, id, Now(12))
  {
    m' := CommitFinally(m, Now(12));
    var m1 := ResolveSettled(m.(flight := None, pendingFinalizations := m.pendingFinalizations - {Minute(10)}), Minute(10));
    assert m1.readyToCommit.Keys == {Minute(10)};
    assert m1.readyToCommit - {Minute(10)} == map[];
    assert m' == Drain(m1, Now(12));
    assert m' == StartCommit(m1.(readyToCommit := map[]), Renewed(), Now(12));
    assert !Blocked(m, Minute(10));
  }

  lemma {:induction false} OutdatedCommitEnds(m4: Machine, m5: Machine) returns (m6: Machine, m7: Machine, m8: Machine)
    requires Interrupted(m4) && m5 == QueuedAnew(m4)
    ensures Follows(m5, CommitAnswered(true), m6) && Follows(m6, CommitCleanup(Now(12)), m7)
    ensures Follows(m7, ApplicationResumed(Application(RENEWED, Settling({m4.nextWaiter})), Missing, Now(12)), m8)
    ensures Awaiting(m6, m4.nextWaiter) && ReleasedEarly(m6, m4.nextWaiter, Now(12))
    ensures m7.recoveryActive && !m8.recoveryActive
    ensures Writing(m8) && m8.flight == m7.flight && m8.flight.value.candle == CandleOf(10)
  {
    m6 := m5.(flight := Some(Returned(FIRST)));
    m7 := RenewedWriteBegins(m6, m4.nextWaiter);
    hide CommitFinally, ReleasedEarly;
    m8 := BatchSettled(m7, Application(RENEWED, Settling({m4.nextWaiter}))).machine;
  }
}
