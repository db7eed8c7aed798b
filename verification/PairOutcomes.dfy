/** What each event comes to for a pair's machine, in terms of minutes, clocks, epochs and faults: when a commit writes and
    which candidate is taken, when a minute enters its grace period and the queue, what a packet is taken for, and what a
    recovery begins, keeps and ends. */
module PairOutcomes {
  import opened Common
  import opened WorkingCandle
  import opened PairState
  import opened PairStateTheorems
  import opened CandleProvenance

  // ------------------------------------------------------------------ commits

  predicate Wanted(m: Machine, token: Token, origin: Origin) {
    match origin
    case LIVE_FINALIZATION => SameStream(m, token)
    case REST_RECOVERY => Honoured(m, token)
  }

  /** A fault bars every commit, but an incomplete recovery does not bar what completes it. */
  predicate Barred(m: Machine, origin: Origin) {
    m.truthFault != NONE && (origin == LIVE_FINALIZATION || m.truthFault != RECOVERY_INCOMPLETE)
  }

  /** Prices and volumes are not negative, the high and the low bound the rest, and the minute is over. */
  predicate WellFormed(s: Snapshot, now: int) {
    && s.values.low >= 0.0 && s.values.volume >= 0.0 && (s.values.quoteVolume.Some? ==> s.values.quoteVolume.value >= 0.0)
    && s.values.low <= s.values.open <= s.values.high && s.values.low <= s.values.close <= s.values.high
    && s.openTimeMs % MINUTE_MS == 0 && s.openTimeMs >= MIN_CANONICAL_OPEN_TIME_MS && now >= s.openTimeMs + MINUTE_MS
    && SafeInteger(s.openTimeMs + MINUTE_MS) && SafeInteger(now)
  }

  /** A commit writes exactly if its token is wanted, no fault bars it, a live one finds no recovery active and its minute's
      forming candle well-formed, and a recovered one has its record. A malformed forming candle is a fault. */
  lemma {:induction false} CommitStartsExactly(m: Machine, c: Candidate, now: int)
    ensures var m' := StartCommit(m, c, now);
            var k := Key(m.pair, c.openTimeMs);
            var may := Wanted(m, c.token, c.origin) && !Barred(m, c.origin);
            var live := may && c.origin == LIVE_FINALIZATION && !m.recoveryActive && k in m.working.working;
            && m' == m.(flight := m'.flight, truthFault := m'.truthFault) && m'.flight.Some? && m'.flight.value.candidate == c
            && (m'.flight.value.Persisting? <==>
                  (live && WellFormed(m.working.working[k], now)) || (may && c.origin == REST_RECOVERY && c.prebuilt.Some?))
            && m'.truthFault == if live && !WellFormed(m.working.working[k], now) then PERSISTENCE_FAILURE else m.truthFault
  {
    hide SafeInteger;
    if Key(m.pair, c.openTimeMs) in m.working.working {
      SafeBetween(m.working.working[Key(m.pair, c.openTimeMs)].openTimeMs);
    }
  }

  lemma {:induction false} SafeBetween(t: int)
    ensures t >= 0 && SafeInteger(t + MINUTE_MS) ==> SafeInteger(t)
  {
  }

  /** The machine without the queued minutes `gone`, whose waiters have resumed. */
  function Without(m: Machine, gone: set<int>): Machine {
    m.(readyToCommit := m.readyToCommit - gone, pendingFinalizations := m.pendingFinalizations - gone,
       waiters := map id | id in m.waiters && m.waiters[id] !in gone :: m.waiters[id])
  }

  /** The queued minutes that go because they are final already: those up to the watermark, as far as no fault bars one. */
  ghost predicate Outdated(m: Machine, gone: set<int>) {
    && (forall t <- gone :: t in m.readyToCommit && m.latest.Some? && t <= m.latest.value && !Barred(m, m.readyToCommit[t].origin))
    && (forall t, u | t in gone && u in m.readyToCommit :: u <= t ==> u in gone)
  }

  /** The first minute left in the queue. */
  ghost predicate First(m: Machine, t: int) {
    t in m.readyToCommit && forall u <- m.readyToCommit :: t <= u
  }

  /** What a drain does once the outdated minutes are gone: nothing is left, or the first minute is barred and everybody who
      waits for the queue resumes, or it would leave a gap and waits, or its commit starts. */
  ghost predicate Rests(m: Machine, m': Machine, now: int) {
    if m.readyToCommit == map[] then m' == m else exists t :: RestsAt(m, m', t, now)
  }

  ghost predicate RestsAt(m: Machine, m': Machine, t: int, now: int) {
    First(m, t) &&
    var c := m.readyToCommit[t];
    if Barred(m, c.origin) then m' == m.(waiters := map id | id in m.waiters && m.waiters[id] !in m.readyToCommit :: m.waiters[id])
    else
      && (m.latest.Some? ==> t > m.latest.value)
      && m' == if m.latest.Some? && t != m.latest.value + MINUTE_MS then m
               else StartCommit(m.(readyToCommit := m.readyToCommit - {t}), c, now)
  }

  /** Draining the queue, whole. */
  lemma {:induction false} DrainIsExact(m: Machine, now: int) returns (gone: set<int>)
    ensures if m.stopped || m.flight.Some? then Drain(m, now) == m
            else Outdated(m, gone) && Rests(Without(m, gone), Drain(m, now), now)
    decreases |m.readyToCommit|
  {
    gone := {};
    if m.stopped || m.flight.Some? {
    } else if m.readyToCommit == map[] {
      NothingGone(m);
    } else {
      assert m.readyToCommit.Keys != {};
      var t := Least(m.readyToCommit.Keys);
      var c := m.readyToCommit[t];
      BarredExactly(m, c.origin);
      hide FaultBlocks, Barred, StartCommit;
      NothingGone(m);
      if !FaultBlocks(m, c.origin) && m.latest.Some? && t <= m.latest.value {
        var m1 := Without(m, {t});
        Resolves(m, t);
        assert Drain(m, now) == Drain(m1, now);
        var gone1 := DrainIsExact(m1, now);
        gone := gone1 + {t};
        hide Drain, Rests;
        OneMoreGone(m, t, gone1);
      } else {
        assert RestsAt(m, Drain(m, now), t, now);
      }
    }
  }

  lemma {:induction false} BarredExactly(m: Machine, origin: Origin)
    ensures FaultBlocks(m, origin) <==> Barred(m, origin)
  {
  }

  lemma {:induction false} NothingGone(m: Machine)
    ensures Without(m, {}) == m
  {
    assert (map id | id in m.waiters && m.waiters[id] !in {} :: m.waiters[id]) == m.waiters;
  }

  lemma {:induction false} Resolves(m: Machine, t: int)
    ensures ResolveSettled(m.(readyToCommit := m.readyToCommit - {t}, pendingFinalizations := m.pendingFinalizations - {t}), t) == Without(m, {t})
  {
    assert (map id | id in m.waiters && m.waiters[id] != t :: m.waiters[id]) == (map id | id in m.waiters && m.waiters[id] !in {t} :: m.waiters[id]);
  }

  lemma {:induction false} OneMoreGone(m: Machine, t: int, gone: set<int>)
    requires First(m, t) && m.latest.Some? && t <= m.latest.value && !Barred(m, m.readyToCommit[t].origin) && Outdated(Without(m, {t}), gone)
    ensures Outdated(m, gone + {t}) && Without(Without(m, {t}), gone) == Without(m, gone + {t})
  {
    var m1 := Without(m, {t});
    assert m1.readyToCommit - gone == m.readyToCommit - (gone + {t});
    assert m1.pendingFinalizations - gone == m.pendingFinalizations - (gone + {t});
    assert Without(m1, gone).waiters == Without(m, gone + {t}).waiters;
    forall x | x in gone ensures x in m.readyToCommit && !Barred(m, m.readyToCommit[x].origin) {
      assert x in m1.readyToCommit;
    }
  }

  /** The answer of the persistence layer: a failure is a fault; a success moves the watermark up to the minute and ends its
      forming, if the commit is still wanted. */
  lemma {:induction false} AnswerIsExact(m: Machine, acknowledged: bool)
    ensures var m' := CommitSettled(m, acknowledged);
            if m.flight.None? || m.flight.value.Returned? then m' == m
            else
              var (c, t) := (m.flight.value.candidate, m.flight.value.candle.openTimeMs);
              var moves := acknowledged && Wanted(m, c.token, c.origin);
              && m' == m.(flight := Some(Returned(c)), truthFault := m'.truthFault, latest := m'.latest, working := m'.working)
              && m'.truthFault == (if acknowledged then m.truthFault else PERSISTENCE_FAILURE)
              && m'.latest == (if moves && (m.latest.None? || t > m.latest.value) then Some(t) else m.latest)
              && m'.working.working == (if moves then m.working.working - {Key(m.pair, c.openTimeMs)} else m.working.working)
              && (!moves ==> m'.working == m.working)
  {
  }

  /** The end of a commit: its minute is neither in flight nor in grace, its waiters resume, and the queue drains. */
  lemma {:induction false} EndIsExact(m: Machine, now: int)
    ensures CommitFinally(m, now) ==
            if m.flight.None? || m.flight.value.Persisting? then m
            else
              var t := m.flight.value.candidate.openTimeMs;
              Drain(m.(flight := None, pendingFinalizations := m.pendingFinalizations - {t},
                       waiters := map id | id in m.waiters && m.waiters[id] != t :: m.waiters[id]), now)
  {
    hide Drain;
  }

  // ------------------------------------------------------- the grace period

  /** Minute `t` enters its grace period anew: a timer with today's token; an earlier timer is disarmed and the minute's place
      in the queue is lost. */
  predicate GraceBegins(m: Machine, m': Machine, t: int, providerEventTimeMs: int) {
    var disarmed := if t in m.pendingFinalizations then {m.pendingFinalizations[t].timerId} else {};
    && m' == m.(timers := m'.timers, pendingFinalizations := m'.pendingFinalizations, nextTimer := m.nextTimer + 1, readyToCommit := m'.readyToCommit)
    && m'.timers == (m.timers - disarmed)[m.nextTimer := Timer(t, Token(m.canonicalEpoch, m.recoveryEpoch, m.generationId))]
    && m'.pendingFinalizations == m.pendingFinalizations[t := Pending(m.nextTimer, providerEventTimeMs)]
    && m'.readyToCommit == if t in m.pendingFinalizations then m.readyToCommit - {t} else m.readyToCommit
  }

  /** It does so exactly in live operation without a fault, once the provider's clock is past its end. */
  predicate Graced(m: Machine, m': Machine, t: int, providerEventTimeMs: int) {
    if !m.recoveryActive && m.truthFault == NONE && providerEventTimeMs >= t + MINUTE_MS then GraceBegins(m, m', t, providerEventTimeMs) else m' == m
  }

  lemma {:induction false} GraceIsExact(m: Machine, t: int, providerEventTimeMs: int)
    ensures Graced(m, ScheduleFinalization(m, t, providerEventTimeMs), t, providerEventTimeMs)
  {
  }

  /** A timer that fires: a minute that is not in grace any more, or meets a recovery, is left alone; one that is not over waits
      again; one whose token is not wanted leaves its grace period; any other is queued. */
  lemma {:induction false} TimerIsExact(m: Machine, timerId: nat, now: int)
    requires timerId in m.timers
    ensures var m' := GraceElapsed(m, timerId, now);
            var (t, token) := (m.timers[timerId].openTimeMs, m.timers[timerId].token);
            var fired := m.(timers := m.timers - {timerId});
            if m.stopped || m.recoveryActive || t !in m.pendingFinalizations then m' == fired
            else if now < t + MINUTE_MS then Graced(fired, m', t, m.pendingFinalizations[t].providerEventTimeMs)
            else if !SameStream(m, token) then m' == fired.(pendingFinalizations := m.pendingFinalizations - {t})
            else m' == Enqueue(fired, Candidate(t, LIVE_FINALIZATION, token, None), now)
  {
    hide Enqueue, ScheduleFinalization, Graced;
    var t := m.timers[timerId].openTimeMs;
    if t in m.pendingFinalizations {
      GraceIsExact(m.(timers := m.timers - {timerId}), t, m.pendingFinalizations[t].providerEventTimeMs);
    }
  }

  /** A candidate is queued in place of one for its minute, except that live never displaces recovered. */
  lemma {:induction false} QueueIsExact(m: Machine, c: Candidate, now: int)
    ensures Enqueue(m, c, now) ==
            if c.origin == LIVE_FINALIZATION && c.openTimeMs in m.readyToCommit && m.readyToCommit[c.openTimeMs].origin == REST_RECOVERY then m
            else Drain(m.(readyToCommit := m.readyToCommit[c.openTimeMs := c]), now)
  {
    hide Drain;
  }

  // ------------------------------------------------------------------ packets

  /** The machine runs, and the packet is of its pair and of no older generation. */
  predicate Concerns(m: Machine, e: Envelope) {
    !m.stopped && e.pair == m.pair && (m.generationId.Some? ==> e.generationId >= m.generationId.value)
  }

  predicate WellTimed(e: Envelope, now: int, cfg: Config) {
    && SafeInteger(e.openTimeMs) && e.openTimeMs >= MIN_CANONICAL_OPEN_TIME_MS && e.openTimeMs % MINUTE_MS == 0
    && SafeInteger(e.providerEventTimeMs) && e.openTimeMs <= e.providerEventTimeMs
    && e.oneMinute && SafeInteger(e.closeTimeMs) && e.closeTimeMs == e.openTimeMs + 59_999
    && e.openTimeMs <= now + cfg.maxFutureSkewMs + MINUTE_MS
  }

  /** The minute that is forming. */
  function FormingMinute(m: Machine): Option<int> {
    if m.pair in m.working.current then Some(m.working.current[m.pair]) else None
  }

  /** Minutes are missing before the packet's: from the watermark's successor if none forms, else from the forming one. */
  function GapBefore(m: Machine, e: Envelope): Option<int> {
    match FormingMinute(m)
    case None => if m.latest.Some? && e.openTimeMs > m.latest.value + MINUTE_MS then Some(m.latest.value + MINUTE_MS) else None
    case Some(f) =>
      if e.openTimeMs > f + MINUTE_MS && (m.latest.Some? ==> e.openTimeMs > m.latest.value) then Some(f) else None
  }

  predicate Final(m: Machine, e: Envelope) {
    m.latest.Some? && e.openTimeMs <= m.latest.value
  }

  /** Taking a packet in live operation. One for a final minute is to be compared with the store; one beyond a gap opens a
      recovery of exactly the minutes between, and is buffered; the forming minute's is applied; one for the next minute also
      begins the grace period of the forming one; one for an earlier minute is applied only while that is in grace. */
  predicate TakenLive(m: Machine, e: Envelope, cfg: Config, m': Machine, effect: Effect) {
    if Final(m, e) then m' == m && effect == VerifyHistorical(e, Token(m.canonicalEpoch, m.recoveryEpoch, m.generationId))
    else if GapBefore(m, e).Some? then
      && m' == BufferEnvelope(EnterRecovery(m), e, cfg)
      && effect == RequestRecovery(GapBefore(m, e).value, e.openTimeMs - MINUTE_MS, m.recoveryEpoch + 1)
    else
      && effect == NoEffect
      && match FormingMinute(m)
         case None => m' == ApplyWorking(m, e)
         case Some(f) =>
           if e.openTimeMs == f || (e.openTimeMs < f && e.openTimeMs in m.pendingFinalizations) then m' == ApplyWorking(m, e)
           else if e.openTimeMs < f then m' == m
           else m' == ApplyWorking(ScheduleFinalization(m, f, e.providerEventTimeMs), e)
  }

  /** During a recovery a packet is buffered. Only when an empty reconciliation waits for the forming minute does a fresh one do
      more: it ends the wait and is taken live, unless it belongs before the minute that is owed, which waits on, or after it,
      which asks for the minutes between. */
  predicate TakenRecovering(m: Machine, e: Envelope, now: int, cfg: Config, m': Machine, effect: Effect) {
    var owed := m.reconnectRecoveryFromMs;
    if m.emptyReconciliation.None? || m.truthFault != NONE then m' == BufferEnvelope(m, e, cfg) && effect == NoEffect
    else if !(now - cfg.staleThresholdMs < e.providerEventTimeMs <= now) || (owed.Some? && e.openTimeMs < owed.value) then m' == m && effect == NoEffect
    else if owed.Some? && e.openTimeMs > owed.value then
      && m' == BufferEnvelope(m.(emptyReconciliation := None), e, cfg)
      && effect == RequestRecovery(owed.value, e.openTimeMs - MINUTE_MS, m.recoveryEpoch)
    else TakenLive(m.(emptyReconciliation := None, reconnectRecoveryFromMs := None, recoveryActive := false), e, cfg, m', effect)
  }

  /** Every packet, whole. */
  lemma {:induction false} PacketIsExact(m: Machine, e: Envelope, now: int, cfg: Config)
    requires forall pair <- m.working.current :: m.working.current[pair] % MINUTE_MS == 0
    ensures var (m', effect) := HandleEnvelope(m, e, now, cfg);
            var noted := m.(generationId := Some(e.generationId));
            if !Concerns(m, e) then m' == m && effect == NoEffect
            else if !WellTimed(e, now, cfg) then m' == noted.(truthFault := TIME_INVALID) && effect == NoEffect
            else if e.providerEventTimeMs > now + cfg.maxFutureSkewMs || !(m.truthFault in {NONE, RECOVERY_INCOMPLETE}) then
              m' == noted && effect == NoEffect
            else if m.recoveryActive then TakenRecovering(noted, e, now, cfg, m', effect)
            else if m.truthFault == RECOVERY_INCOMPLETE then m' == noted && effect == NoEffect
            else TakenLive(noted, e, cfg, m', effect)
  {
    var noted := m.(generationId := Some(e.generationId));
    hide BufferEnvelope, ApplyWorking, ScheduleFinalization, EnterRecovery, SafeInteger, TakenLive, AcceptLive;
    if !noted.stopped && WellTimed(e, now, cfg) {
      LiveIsExact(noted, e, cfg);
      LiveIsExact(noted.(emptyReconciliation := None, reconnectRecoveryFromMs := None, recoveryActive := false), e, cfg);
    }
  }

  lemma {:induction false} LiveIsExact(m: Machine, e: Envelope, cfg: Config)
    requires !m.stopped && e.openTimeMs % MINUTE_MS == 0 && (FormingMinute(m).Some? ==> FormingMinute(m).value % MINUTE_MS == 0)
    ensures TakenLive(m, e, cfg, AcceptLive(m, e, cfg).0, AcceptLive(m, e, cfg).1)
  {
    hide BufferEnvelope, ApplyWorking, ScheduleFinalization, ClearAllPending;
    RecoveryEpochRises(m);
    hide EnterRecovery;
  }

  lemma {:induction false} RecoveryEpochRises(m: Machine)
    ensures !m.stopped ==> EnterRecovery(m).recoveryEpoch == m.recoveryEpoch + 1
  {
  }

  /** Buffering, whole. The evidence of the packet's minute may already be a fault; otherwise only a contradiction with the
      buffered packet of the minute, or a full buffer, is one; and the newer of two packets stays. */
  lemma {:induction false} BufferIsExact(m: Machine, e: Envelope, cfg: Config)
    ensures var m' := BufferEnvelope(m, e, cfg);
            var (w, fault) := Observe(m.working, SnapshotOf(e));
            var observed := m.(working := w);
            if fault.Some? then m' == LatchFatal(observed, if fault.value == CONFLICT then CANONICAL_CONFLICT else BUFFER_OVERFLOW)
            else
              && (forall i | IsFirst(m.recoveryBuffer, i, e.openTimeMs) ::
                    var x := m.recoveryBuffer[i];
                    m' == if x.providerEventTimeMs == e.providerEventTimeMs && x.values != e.values then LatchFatal(observed, CANONICAL_CONFLICT)
                          else if x.providerEventTimeMs < e.providerEventTimeMs then observed.(recoveryBuffer := m.recoveryBuffer[i := e])
                          else observed)
              && ((forall x <- m.recoveryBuffer :: x.openTimeMs != e.openTimeMs) ==>
                    m' == if |m.recoveryBuffer| >= cfg.maxRecoveryBuffer then LatchFatal(observed, BUFFER_OVERFLOW)
                          else observed.(recoveryBuffer := m.recoveryBuffer + [e]))
  {
    hide Observe, LatchFatal, BufferIndex;
    var i := BufferIndex(m.recoveryBuffer, e.openTimeMs);
    forall j | IsFirst(m.recoveryBuffer, j, e.openTimeMs) ensures j == i {
    }
  }

  /** The first buffered packet of the minute. */
  predicate IsFirst(buffer: seq<Envelope>, i: int, minute: int) {
    0 <= i < |buffer| && buffer[i].openTimeMs == minute && forall j :: 0 <= j < i ==> buffer[j].openTimeMs != minute
  }

  // --------------------------------------------------------------- recoveries

  /** Nothing is in grace or queued any more, whoever waited for the queue has resumed, and only the timers of the minutes in
      grace are disarmed. */
  predicate Dropped(m: Machine, m': Machine) {
    && m'.pendingFinalizations == map[] && m'.readyToCommit == map[]
    && m'.waiters == (map id | id in m.waiters && m.waiters[id] !in m.readyToCommit :: m.waiters[id])
    && m'.timers == m.timers - set t <- m.pendingFinalizations :: m.pendingFinalizations[t].timerId
  }

  /** The forming candles of the pair and the buffered packets are gone. */
  predicate Forgotten(m: Machine, m': Machine) {
    && m'.recoveryBuffer == [] && FormingMinute(m').None? && (forall k <- m'.working.working :: k.pair != m.pair)
    && (forall k <- m'.working.evidence :: k.pair != m.pair)
    && (forall k <- m.working.working :: k.pair != m.pair ==> k in m'.working.working && m'.working.working[k] == m.working.working[k])
  }

  /** What a fatal fault leaves. */
  lemma {:induction false} FatalIsExact(m: Machine, fault: TruthFault)
    ensures var m' := LatchFatal(m, fault);
            && Dropped(m, m') && Forgotten(m, m')
            && m' == m.(truthFault := fault, pendingFinalizations := map[], readyToCommit := map[], waiters := m'.waiters, timers := m'.timers,
                        working := m'.working, recoveryBuffer := [])
  {
  }

  /** A new recovery: the next recovery epoch, and nothing pending. */
  lemma {:induction false} RecoveryIsExact(m: Machine)
    ensures var m' := EnterRecovery(m);
            if m.stopped then m' == m
            else
              && Dropped(m, m')
              && m' == m.(recoveryEpoch := m.recoveryEpoch + 1, recoveryActive := true, emptyReconciliation := None,
                          pendingFinalizations := map[], readyToCommit := map[], waiters := m'.waiters, timers := m'.timers)
  {
  }

  /** A recovery's fault is latched exactly for the current recovery of a running machine that has no fault, and keeps it
      recovering. */
  lemma {:induction false} RecoveryFaultIsExact(m: Machine, fault: TruthFault, recoveryEpoch: int)
    ensures LatchRecoveryFault(m, fault, recoveryEpoch) ==
            if !m.stopped && recoveryEpoch == m.recoveryEpoch && m.truthFault == NONE then m.(truthFault := fault, recoveryActive := true) else m
  {
  }

  lemma {:induction false} HandoffIsExact(m: Machine, result: EmptyReconciliation)
    ensures AwaitReconnectHandoff(m, result) == if m.stopped || !m.recoveryActive then m else m.(emptyReconciliation := Some(result))
  {
  }

  /** A minute that a reconnect must not lose: one in grace, the forming one, or one still owed. */
  predicate Unfinished(m: Machine, t: int) {
    t in m.pendingFinalizations || FormingMinute(m) == Some(t) || m.reconnectRecoveryFromMs == Some(t)
  }

  /** A reconnect to no older generation: both epochs rise, everything pending and forming goes, and recovery is owed from the
      watermark's successor or, without a watermark, from the first unfinished minute. */
  lemma {:induction false} ReconnectIsExact(m: Machine, newGeneration: int)
    ensures var m' := ReconnectBarrier(m, newGeneration);
            var owed := m'.reconnectRecoveryFromMs;
            if m.stopped || (m.generationId.Some? && newGeneration < m.generationId.value) then m' == m
            else
              && Dropped(m, m') && Forgotten(m, m')
              && m' == m.(reconnectRecoveryFromMs := owed, generationId := Some(newGeneration), canonicalEpoch := m.canonicalEpoch + 1,
                          recoveryEpoch := m.recoveryEpoch + 1, recoveryActive := true, emptyReconciliation := None, pendingFinalizations := map[],
                          readyToCommit := map[], waiters := m'.waiters, timers := m'.timers, working := m'.working, recoveryBuffer := [])
              && (m.latest.Some? ==> owed == Some(m.latest.value + MINUTE_MS))
              && (m.latest.None? ==> (owed.None? <==> forall t :: !Unfinished(m, t)))
              && (m.latest.None? && owed.Some? ==> Unfinished(m, owed.value) && forall t :: Unfinished(m, t) ==> owed.value <= t)
  {
    OwedExactly(m);
    hide ReconnectFrom, Unfinished, Dropped, Forgotten, ClearAllPending, Forget;
    var m1 := m.(reconnectRecoveryFromMs := ReconnectFrom(m), generationId := Some(newGeneration), canonicalEpoch := m.canonicalEpoch + 1,
                 recoveryEpoch := m.recoveryEpoch + 1);
    ClearingIsExact(m1);
    if ReconnectBarrier(m, newGeneration) != m {
      DroppedBySameQueue(m, m1, ReconnectBarrier(m, newGeneration));
      SameAfterwards(m1, Forget(ClearAllPending(m1)), ReconnectBarrier(m, newGeneration));
    }
  }

  /** Whose recovery would be owed. */
  lemma {:induction false} OwedExactly(m: Machine)
    ensures var owed := ReconnectFrom(m);
            && (m.latest.Some? ==> owed == Some(m.latest.value + MINUTE_MS))
            && (m.latest.None? ==> (owed.None? <==> forall t :: !Unfinished(m, t)))
            && (m.latest.None? && owed.Some? ==> Unfinished(m, owed.value) && forall t :: Unfinished(m, t) ==> owed.value <= t)
  {
    var u := Unresolved(m);
    UnresolvedExactly(m);
    hide Unresolved, Unfinished;
    assert (forall t :: t !in u) ==> u <= {};
  }

  lemma {:induction false} UnresolvedExactly(m: Machine)
    ensures forall t :: t in Unresolved(m) <==> Unfinished(m, t)
  {
  }

  lemma {:induction false} ClearingIsExact(m: Machine)
    ensures var m' := Forget(ClearAllPending(m));
            && Dropped(m, m') && Forgotten(m, m')
            && m' == m.(pendingFinalizations := map[], readyToCommit := map[], waiters := m'.waiters, timers := m'.timers, working := m'.working,
                        recoveryBuffer := [])
  {
  }

  /** Neither speaks of what a reconnect sets last. */
  lemma {:induction false} SameAfterwards(m: Machine, a: Machine, b: Machine)
    requires b == a.(recoveryActive := b.recoveryActive, emptyReconciliation := b.emptyReconciliation)
    ensures Dropped(m, a) ==> Dropped(m, b)
    ensures Forgotten(m, a) ==> Forgotten(m, b)
  {
  }

  lemma {:induction false} DroppedBySameQueue(m: Machine, m1: Machine, m': Machine)
    requires m1.pendingFinalizations == m.pendingFinalizations && m1.readyToCommit == m.readyToCommit && m1.waiters == m.waiters
    requires m1.timers == m.timers && m1.working == m.working && m1.pair == m.pair
    ensures Dropped(m1, m') ==> Dropped(m, m')
    ensures Forgotten(m1, m') ==> Forgotten(m, m')
  {
  }

  /** A stop: both epochs rise and nothing is left. */
  lemma {:induction false} StopIsExact(m: Machine)
    ensures var m' := Stop(m);
            && Dropped(m, m') && Forgotten(m, m')
            && m' == m.(stopped := true, canonicalEpoch := m.canonicalEpoch + 1, recoveryEpoch := m.recoveryEpoch + 1, pendingFinalizations := map[],
                        readyToCommit := map[], waiters := m'.waiters, timers := m'.timers, working := m'.working, recoveryBuffer := [])
  {
  }

  // ------------------------------------------------ applying what was recovered

  /** A batch is applied exactly for the current recovery of a running machine. */
  lemma {:induction false} BeginningIsExact(m: Machine, candles: seq<Candle>, recoveryEpoch: int)
    ensures BeginApplication(m, candles, recoveryEpoch) ==
            if m.stopped || recoveryEpoch != m.recoveryEpoch then Finished
            else Continue(Application(Token(m.canonicalEpoch, m.recoveryEpoch, m.generationId), Enqueuing(candles, {})))
  {
  }

  /** The next record of a batch, until none is left and everything queued is awaited: the application ends if it is not wanted any more; a record of another pair is a conflict; one
      for a final minute is compared with the store first; any other is queued, and awaited. */
  lemma {:induction false} RecordIsExact(m: Machine, a: Application, now: int)
    requires a.phase.Enqueuing?
    ensures a.phase.rest == [] ==> EnqueueRecovered(m, a, now) == Reaction(m, NoEffect, Continue(Application(a.token, Settling(a.phase.awaiting))))
    ensures a.phase.rest != [] ==>
            var r := EnqueueRecovered(m, a, now);
            var c, rest := a.phase.rest[0], a.phase.rest[1..];
            && r.effect == NoEffect
            && if !Honoured(m, a.token) then r.machine == m && r.next == Finished
               else if c.pair != m.pair then r.machine == LatchFatal(m, CANONICAL_CONFLICT) && r.next == Finished
               else if m.latest.Some? && c.openTimeMs <= m.latest.value then
                 r.machine == m && r.next == Continue(Application(a.token, CheckingOverlap(c, rest, a.phase.awaiting)))
               else
                 && r.next == Continue(Application(a.token, Enqueuing(rest, a.phase.awaiting + {m.nextWaiter})))
                 && r.machine == Enqueue(m.(waiters := m.waiters[m.nextWaiter := c.openTimeMs], nextWaiter := m.nextWaiter + 1),
                                         Candidate(c.openTimeMs, REST_RECOVERY, a.token, Some(c)), now)
  {
    hide Enqueue, LatchFatal;
  }

  /** When everything awaited has resumed: an incomplete recovery is forgiven, and the buffered packets are reconciled, exactly if
      the recovery is still the current one; any other fault ends it. */
  lemma {:induction false} SettlingIsExact(m: Machine, a: Application)
    requires a.phase.Settling?
    ensures BatchSettled(m, a) ==
            if !Honoured(m, a.token) || !(m.truthFault in {NONE, RECOVERY_INCOMPLETE}) then Reaction(m, NoEffect, Finished)
            else Reconcile(m.(truthFault := NONE), a)
  {
    hide Reconcile;
  }

  /** Reconciling takes the first buffered packet for a final minute out, to compare it with the store; when there is none, the
      recovery is over and the packets are handed over minute by minute. */
  lemma {:induction false} ReconcilingIsExact(m: Machine, a: Application)
    ensures var r := Reconcile(m, a);
            && r.effect == NoEffect
            && ((forall e <- m.recoveryBuffer :: !Final(m, e)) ==>
                  && r.machine == m.(recoveryBuffer := [], recoveryActive := false, reconnectRecoveryFromMs := None, emptyReconciliation := None)
                  && r.next == Continue(Application(a.token, Draining(SortByMinute(m.recoveryBuffer)))))
            && (forall i | FirstFinal(m, i) ::
                  && r.machine == m.(recoveryBuffer := m.recoveryBuffer[..i] + m.recoveryBuffer[i + 1..])
                  && r.next == Continue(Application(a.token,
                       Reconciling(m.recoveryBuffer[i], Token(m.canonicalEpoch, m.recoveryEpoch, m.generationId)))))
  {
    hide SortByMinute, FirstOverlap;
    var first := if m.latest.Some? then FirstOverlap(m.recoveryBuffer, m.latest.value) else |m.recoveryBuffer|;
    assert forall i :: FirstFinal(m, i) ==> i == first;
    assert first < |m.recoveryBuffer| ==> m.recoveryBuffer[first] in m.recoveryBuffer;
  }

  /** The first buffered packet for a final minute. */
  predicate FirstFinal(m: Machine, i: int) {
    0 <= i < |m.recoveryBuffer| && Final(m, m.recoveryBuffer[i]) && forall j :: 0 <= j < i ==> !Final(m, m.recoveryBuffer[j])
  }

  /** After such a comparison the reconciliation goes on exactly if the recovery is still current and no fault has come of it. */
  lemma {:induction false} LateIsExact(m: Machine, a: Application, answer: ReadAnswer)
    requires a.phase.Reconciling?
    ensures var m1 := Verified(m, a.phase.late, a.phase.lateToken, answer);
            LateReconciled(m, a, answer) ==
            if Honoured(m, a.token) && m1.truthFault == NONE then Reconcile(m1, a) else Reaction(m1, NoEffect, Finished)
  {
    VerifiedFault(m, a.phase.late, a.phase.lateToken, answer);
    hide Reconcile, Verified;
  }

  /** The next packet handed over is treated like any that arrives, if the recovery's token is still honoured; one of an older
      generation is passed over. */
  lemma {:induction false} HandingOverIsExact(m: Machine, a: Application, now: int, cfg: Config)
    requires a.phase.Draining? && a.phase.items != []
    ensures var r := DrainBuffered(m, a, now, cfg);
            var e, rest := a.phase.items[0], a.phase.items[1..];
            var (m', effect) := HandleEnvelope(m, e, now, cfg);
            if !Honoured(m, a.token) then r == Reaction(m, NoEffect, Finished)
            else if m.generationId.Some? && e.generationId < m.generationId.value then
              r == Reaction(m, NoEffect, Continue(Application(a.token, Draining(rest))))
            else if effect.VerifyHistorical? then
              r == Reaction(m', NoEffect, Continue(Application(a.token, DrainVerifying(effect.envelope, effect.token, rest))))
            else r == Reaction(m', effect, Continue(Application(a.token, Draining(rest))))
  {
    hide HandleEnvelope;
    HonouredExactly(m, a.token);
    hide TokenValid, Honoured;
    var (e, rest) := (a.phase.items[0], a.phase.items[1..]);
    var (m', effect) := HandleEnvelope(m, e, now, cfg);
    if effect.VerifyHistorical? && Honoured(m, a.token) && !(m.generationId.Some? && e.generationId < m.generationId.value) {
      assert DrainBuffered(m, a, now, cfg)
          == Reaction(m', NoEffect, Continue(a.(phase := DrainVerifying(effect.envelope, effect.token, rest))));
    }
  }

  lemma {:induction false} HonouredExactly(m: Machine, token: Token)
    ensures TokenValid(m, token, REST_RECOVERY) <==> Honoured(m, token)
  {
  }
}
