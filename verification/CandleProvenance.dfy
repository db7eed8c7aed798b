/** Where the prices of a commit come from, over whole lives of a machine: a live commit carries the newest packet of its
    minute, a recovered one its record. Everything is said of packets, records and the fields of candles. */
module CandleProvenance {
  import opened Common
  import opened WorkingCandle
  import opened PairState
  import opened PairStateTheorems

  // ------------------------------------------------------------ vocabulary

  /** Field by field, the forming candle is what the packet says. */
  predicate Carries(s: Snapshot, e: Envelope) {
    && s.pair == e.pair && s.openTimeMs == e.openTimeMs && s.providerEventTimeMs == e.providerEventTimeMs
    && s.values.open == e.values.open && s.values.high == e.values.high && s.values.low == e.values.low
    && s.values.close == e.values.close && s.values.volume == e.values.volume && s.values.quoteVolume == e.values.quoteVolume
  }

  predicate CandleCarries(c: Candle, e: Envelope) {
    && c.pair == e.pair && c.openTimeMs == e.openTimeMs
    && c.values.open == e.values.open && c.values.high == e.values.high && c.values.low == e.values.low
    && c.values.close == e.values.close && c.values.volume == e.values.volume && c.values.quoteVolume == e.values.quoteVolume
  }

  /** The packet that a stimulus hands to the machine, directly or out of a drained buffer. */
  function PacketsOf(s: Stimulus): set<Envelope> {
    match s
    case Packet(e, _) => {e}
    case ApplicationResumed(a, _, _) => if a.phase.Draining? && a.phase.items != [] then {a.phase.items[0]} else {}
    case _ => {}
  }

  /** The record that a stimulus hands to the machine. */
  function RecordsOf(s: Stimulus): set<Candle> {
    if s.ApplicationResumed? && s.application.phase.Enqueuing? && s.application.phase.rest != []
    then {s.application.phase.rest[0]} else {}
  }

  predicate Stays(m: Machine, m': Machine, k: Key)
    requires k in m'.working.working
  {
    k in m.working.working && m'.working.working[k] == m.working.working[k]
  }

  /** The forming candle of a minute becomes what a packet says, which is newer than what it was. */
  predicate Becomes(m: Machine, m': Machine, k: Key, e: Envelope)
    requires k in m'.working.working
  {
    && k == Key(e.pair, e.openTimeMs) && Carries(m'.working.working[k], e)
    && (k in m.working.working ==> m.working.working[k].providerEventTimeMs < e.providerEventTimeMs)
  }

  /** Forming candles and buffered packets change only by the packets `d`, and only forward in provider time. */
  ghost predicate Moves(m: Machine, m': Machine, d: set<Envelope>) {
    && (forall k <- m'.working.working :: Stays(m, m', k) || exists e <- d :: Becomes(m, m', k, e))
    && (forall e <- m'.recoveryBuffer :: e in m.recoveryBuffer || e in d)
  }

  ghost predicate Loses(m: Machine, m': Machine) {
    && (forall k <- m'.working.working :: Stays(m, m', k))
    && (forall e <- m'.recoveryBuffer :: e in m.recoveryBuffer)
  }

  predicate SameEvidence(m: Machine, m': Machine) {
    m'.working.working == m.working.working && m'.recoveryBuffer == m.recoveryBuffer
  }

  lemma {:induction false} SameThenMoves(a: Machine, b: Machine, c: Machine, d: set<Envelope>)
    requires SameEvidence(a, b) && Moves(b, c, d)
    ensures Moves(a, c, d)
  {
    hide Carries;
    forall k | k in c.working.working ensures Stays(a, c, k) || exists e <- d :: Becomes(a, c, k, e) {
      if !Stays(b, c, k) {
        var e :| e in d && Becomes(b, c, k, e);
        assert Becomes(a, c, k, e);
      }
    }
  }

  lemma {:induction false} MovesThenLoses(a: Machine, b: Machine, c: Machine, d: set<Envelope>)
    requires Moves(a, b, d) && Loses(b, c)
    ensures Moves(a, c, d)
  {
    hide Carries;
    forall k | k in c.working.working ensures Stays(a, c, k) || exists e <- d :: Becomes(a, c, k, e) {
      if !Stays(a, b, k) {
        var e :| e in d && Becomes(a, b, k, e);
        assert Becomes(a, c, k, e);
      }
    }
  }

  lemma {:induction false} SameLoses(a: Machine, b: Machine)
    requires SameEvidence(a, b)
    ensures Loses(a, b)
  {
  }

  lemma {:induction false} LosesComposes(a: Machine, b: Machine, c: Machine)
    requires Loses(a, b) && Loses(b, c)
    ensures Loses(a, c)
  {
  }

  lemma {:induction false} LosesMoves(a: Machine, b: Machine, d: set<Envelope>)
    requires Loses(a, b)
    ensures Moves(a, b, d)
  {
  }

  // ------------------------------------------------------- single reactions

  lemma {:induction false} ClearingKeepsEvidence(m: Machine)
    ensures SameEvidence(m, ClearAllPending(m)) && ClearAllPending(m).pair == m.pair
  {
  }

  lemma {:induction false} ForgettingLoses(m: Machine)
    ensures Loses(m, Forget(m)) && Forget(m).recoveryBuffer == []
    ensures forall k <- Forget(m).working.working :: k.pair != m.pair
  {
  }

  lemma {:induction false} LatchingLoses(m: Machine, fault: TruthFault)
    ensures Loses(m, LatchFatal(m, fault)) && LatchFatal(m, fault).truthFault == fault
    ensures forall k <- LatchFatal(m, fault).working.working :: k.pair != m.pair
  {
    var m1 := ClearAllPending(m.(truthFault := fault));
    ClearingKeepsEvidence(m.(truthFault := fault));
    ForgettingLoses(m1);
    assert SameEvidence(m, m1);
    hide ClearAllPending, Forget;
    SameLoses(m, m1);
    hide Loses;
    LosesComposes(m, m1, LatchFatal(m, fault));
  }

  lemma {:induction false} EvidenceLoses(m: Machine, w: Manager, fault: EvidenceFault)
    requires w.working == m.working.working
    ensures var m' := LatchEvidence(m.(working := w), fault);
            Loses(m, m') && m'.truthFault != NONE && forall k <- m'.working.working :: k.pair != m.pair
  {
    var m1 := m.(working := w);
    SameLoses(m, m1);
    hide Loses, LatchFatal;
    LatchingLoses(m1, CANONICAL_CONFLICT);
    LatchingLoses(m1, BUFFER_OVERFLOW);
    LosesComposes(m, m1, LatchEvidence(m1, fault));
  }

  lemma {:induction false} ObservingKeepsWorking(w: Manager, s: Snapshot)
    ensures Observe(w, s).0.working == w.working
  {
  }

  lemma {:induction false} BufferingMoves(m: Machine, e: Envelope, cfg: Config)
    ensures Moves(m, BufferEnvelope(m, e, cfg), {e})
  {
    hide Moves, Loses, LatchFatal, LatchEvidence, Observe, BufferIndex;
    var (w, fault) := Observe(m.working, SnapshotOf(e));
    ObservingKeepsWorking(m.working, SnapshotOf(e));
    var m1 := m.(working := w);
    SameLoses(m, m1);
    LosesMoves(m, m1, {e});
    if fault.Some? {
      EvidenceLoses(m, w, fault.value);
      LosesMoves(m, LatchEvidence(m1, fault.value), {e});
    }
    LatchingLoses(m1, CANONICAL_CONFLICT);
    LatchingLoses(m1, BUFFER_OVERFLOW);
    MovesThenLoses(m, m1, LatchFatal(m1, CANONICAL_CONFLICT), {e});
    MovesThenLoses(m, m1, LatchFatal(m1, BUFFER_OVERFLOW), {e});
    var i := BufferIndex(m.recoveryBuffer, e.openTimeMs);
    Rebuffered(m, m1, m.recoveryBuffer + [e], e);
    if i < |m.recoveryBuffer| {
      Rebuffered(m, m1, m.recoveryBuffer[i := e], e);
    }
  }

  lemma {:induction false} Rebuffered(m: Machine, m1: Machine, buffer: seq<Envelope>, e: Envelope)
    requires m1.working.working == m.working.working && forall x <- buffer :: x in m.recoveryBuffer || x == e
    ensures Moves(m, m1.(recoveryBuffer := buffer), {e})
  {
  }

  lemma {:induction false} UpdatingMoves(m: Machine, e: Envelope)
    ensures var (w, result) := Updated(m.working, SnapshotOf(e));
            && Moves(m, m.(working := w), {e})
            && (result.FAULTED? ==> w.working == m.working.working)
            && (!result.FAULTED? ==>
                  var k := Key(e.pair, e.openTimeMs); k in w.working && w.working[k].providerEventTimeMs >= e.providerEventTimeMs)
  {
    var s := SnapshotOf(e);
    ObservingKeepsWorking(m.working, s);
    hide Observe;
    var (w, result) := Updated(m.working, s);
    var m' := m.(working := w);
    forall k | k in w.working ensures Stays(m, m', k) || Becomes(m, m', k, e) {
    }
  }

  /** Afterwards the minute's forming candle is no older than the packet, or a fault has been latched. */
  predicate Taken(m: Machine, e: Envelope) {
    var k := Key(e.pair, e.openTimeMs);
    if k in m.working.working then m.working.working[k].providerEventTimeMs >= e.providerEventTimeMs else m.truthFault != NONE
  }

  lemma {:induction false} ApplyingMoves(m: Machine, e: Envelope)
    ensures Moves(m, ApplyWorking(m, e), {e})
    ensures e.pair == m.pair ==> Taken(ApplyWorking(m, e), e)
  {
    hide Moves, Loses, LatchEvidence, Updated;
    UpdatingMoves(m, e);
    var (w, result) := Updated(m.working, SnapshotOf(e));
    if result.FAULTED? {
      EvidenceLoses(m, w, result.fault);
      LosesMoves(m, ApplyWorking(m, e), {e});
    }
  }

  lemma {:induction false} EnteringKeepsEvidence(m: Machine)
    ensures SameEvidence(m, EnterRecovery(m))
  {
    var m1 := m.(recoveryEpoch := m.recoveryEpoch + 1, recoveryActive := true, emptyReconciliation := None);
    ClearingKeepsEvidence(m1);
    hide ClearAllPending;
  }

  lemma {:induction false} SchedulingKeepsEvidence(m: Machine, openTimeMs: int, providerEventTimeMs: int)
    ensures var m' := ScheduleFinalization(m, openTimeMs, providerEventTimeMs);
            SameEvidence(m, m') && m'.working == m.working && m'.pair == m.pair
  {
  }

  lemma {:induction false} GapMoves(m: Machine, e: Envelope, fromMs: int, cfg: Config)
    ensures Moves(m, OpenGap(m, e, fromMs, cfg).0, {e})
  {
    hide Moves, EnterRecovery, BufferEnvelope;
    EnteringKeepsEvidence(m);
    BufferingMoves(EnterRecovery(m), e, cfg);
    SameThenMoves(m, EnterRecovery(m), BufferEnvelope(EnterRecovery(m), e, cfg), {e});
  }

  lemma {:induction false} SameMoves(m: Machine, m': Machine, d: set<Envelope>)
    requires SameEvidence(m, m')
    ensures Moves(m, m', d)
  {
  }

  /** The packet is for the minute that is forming, for one in its grace period, or for the minute that comes next. */
  predicate Forming(m: Machine, e: Envelope) {
    && (m.latest.Some? ==> e.openTimeMs > m.latest.value)
    && if e.pair in m.working.current then
         var current := m.working.current[e.pair];
         || e.openTimeMs == current || e.openTimeMs == current + MINUTE_MS
         || (e.openTimeMs < current && e.openTimeMs in m.pendingFinalizations)
       else m.latest.Some? ==> e.openTimeMs <= m.latest.value + MINUTE_MS
  }

  lemma {:induction false} LiveMoves(m: Machine, e: Envelope, cfg: Config)
    ensures Moves(m, AcceptLive(m, e, cfg).0, {e})
    ensures e.pair == m.pair && Forming(m, e) ==> Taken(AcceptLive(m, e, cfg).0, e)
  {
    hide Moves, ApplyWorking, OpenGap, ScheduleFinalization, Taken;
    SameMoves(m, m, {e});
    ApplyingMoves(m, e);
    var current := CurrentOpenTime(m.working, m.pair);
    if m.latest.Some? {
      GapMoves(m, e, m.latest.value + MINUTE_MS, cfg);
    }
    if current.Some? {
      GapMoves(m, e, current.value, cfg);
      var m1 := ScheduleFinalization(m, current.value, e.providerEventTimeMs);
      SchedulingKeepsEvidence(m, current.value, e.providerEventTimeMs);
      ApplyingMoves(m1, e);
      SameThenMoves(m, m1, ApplyWorking(m1, e), {e});
    }
  }

  lemma {:induction false} RecoveringMoves(m: Machine, e: Envelope, now: int, cfg: Config)
    ensures Moves(m, AcceptRecovering(m, e, now, cfg).0, {e})
  {
    hide Moves, BufferEnvelope, AcceptLive, Taken;
    var m1 := m.(emptyReconciliation := None);
    var m2 := m.(emptyReconciliation := None, reconnectRecoveryFromMs := None, recoveryActive := false);
    SameMoves(m, m, {e});
    BufferingMoves(m, e, cfg);
    BufferingMoves(m1, e, cfg);
    LiveMoves(m2, e, cfg);
    SameThenMoves(m, m1, BufferEnvelope(m1, e, cfg), {e});
    SameThenMoves(m, m2, AcceptLive(m2, e, cfg).0, {e});
  }

  /** A machine in live operation that the packet concerns: running, without a fault, not recovering; the packet is of its
      pair, of no older generation, well-formed, not too far ahead, and for a minute being formed. */
  predicate Takeable(m: Machine, e: Envelope, now: int, cfg: Config) {
    && !m.stopped && m.truthFault == NONE && !m.recoveryActive && e.pair == m.pair
    && (m.generationId.Some? ==> e.generationId >= m.generationId.value)
    && SafeInteger(e.openTimeMs) && e.openTimeMs >= MIN_CANONICAL_OPEN_TIME_MS && e.openTimeMs % MINUTE_MS == 0
    && SafeInteger(e.providerEventTimeMs) && e.openTimeMs <= e.providerEventTimeMs <= now + cfg.maxFutureSkewMs
    && e.oneMinute && SafeInteger(e.closeTimeMs) && e.closeTimeMs == e.openTimeMs + 59_999
    && e.openTimeMs <= now + cfg.maxFutureSkewMs + MINUTE_MS
    && Forming(m, e)
  }

  lemma {:induction false} PacketMoves(m: Machine, e: Envelope, now: int, cfg: Config)
    ensures Moves(m, HandleEnvelope(m, e, now, cfg).0, {e})
    ensures Takeable(m, e, now, cfg) ==> Taken(HandleEnvelope(m, e, now, cfg).0, e)
  {
    hide Moves, AcceptRecovering, AcceptLive, Taken;
    SameMoves(m, m, {e});
    var m1 := m.(generationId := Some(e.generationId));
    SameMoves(m, m1, {e});
    SameMoves(m, m1.(truthFault := TIME_INVALID), {e});
    RecoveringMoves(m1, e, now, cfg);
    LiveMoves(m1, e, cfg);
    SameThenMoves(m, m1, AcceptRecovering(m1, e, now, cfg).0, {e});
    SameThenMoves(m, m1, AcceptLive(m1, e, cfg).0, {e});
  }

  lemma {:induction false} BarrierLoses(m: Machine, newGeneration: int)
    ensures Loses(m, ReconnectBarrier(m, newGeneration))
  {
    hide ReconnectFrom, ClearAllPending, Forget;
    var m1 := m.(reconnectRecoveryFromMs := ReconnectFrom(m), generationId := Some(newGeneration),
                 canonicalEpoch := m.canonicalEpoch + 1, recoveryEpoch := m.recoveryEpoch + 1);
    ClearingKeepsEvidence(m1);
    ForgettingLoses(ClearAllPending(m1));
  }

  lemma {:induction false} StoppingLoses(m: Machine)
    ensures Loses(m, Stop(m))
  {
    hide ClearAllPending, Forget;
    var m1 := m.(stopped := true, canonicalEpoch := m.canonicalEpoch + 1, recoveryEpoch := m.recoveryEpoch + 1);
    ClearingKeepsEvidence(m1);
    ForgettingLoses(ClearAllPending(m1));
  }

  lemma {:induction false} AnsweringLoses(m: Machine, ok: bool)
    ensures Loses(m, CommitSettled(m, ok))
  {
  }

  // --------------------------------------------------------------- the queue

  predicate InQueue(q: map<int, Candidate>, c: Candidate) {
    exists t <- q :: q[t] == c
  }

  predicate Within(q': map<int, Candidate>, q: map<int, Candidate>) {
    forall t <- q' :: t in q && q'[t] == q[t]
  }

  /** A write that starts takes a queued candidate: the candle of a live one is the forming candle of its minute, that of a
      recovered one is its record. */
  ghost predicate StartsFrom(m: Machine, m': Machine) {
    StartsWrite(m, m') ==>
      var f := m'.flight.value;
      && InQueue(m.readyToCommit, f.candidate)
      && (f.candidate.origin == LIVE_FINALIZATION ==>
            var k := Key(m.pair, f.candidate.openTimeMs);
            k in m.working.working && CandleIs(f.candle, m.working.working[k]))
      && (f.candidate.origin == REST_RECOVERY ==> f.candidate.prebuilt == Some(f.candle))
  }

  predicate CandleIs(c: Candle, s: Snapshot) {
    && c.pair == s.pair && c.openTimeMs == s.openTimeMs
    && c.values.open == s.values.open && c.values.high == s.values.high && c.values.low == s.values.low
    && c.values.close == s.values.close && c.values.volume == s.values.volume && c.values.quoteVolume == s.values.quoteVolume
  }

  /** Draining takes nothing but from the queue and changes no evidence. */
  ghost predicate Spent(m: Machine, m': Machine) {
    && SameEvidence(m, m') && StartsFrom(m, m') && Within(m'.readyToCommit, m.readyToCommit)
  }

  lemma {:induction false} DrainSpends(m: Machine, now: int)
    ensures Spent(m, Drain(m, now))
    decreases |m.readyToCommit|
  {
    hide FaultBlocks, StartCommit, Spent;
    DrainingNothing(m);
    if !m.stopped && m.flight.None? && m.readyToCommit != map[] {
      assert m.readyToCommit.Keys != {};
      var t := Least(m.readyToCommit.Keys);
      var c := m.readyToCommit[t];
      if FaultBlocks(m, c.origin) {
      } else if m.latest.Some? && t <= m.latest.value {
        var m1 := DropSuperseded(m, t);
        DrainSpends(m1, now);
        DroppingSpends(m, m1, Drain(m1, now), t);
      } else if m.latest.None? || t == m.latest.value + MINUTE_MS {
        StartingSpends(m, t, now);
      }
    }
  }

  lemma {:induction false} DrainingNothing(m: Machine)
    ensures Spent(m, m) && Spent(m, ResolveAllReady(m))
  {
  }

  lemma {:induction false} DroppingSpends(m: Machine, m1: Machine, m': Machine, t: int)
    requires m.flight.None? && t in m.readyToCommit && m1 == DropSuperseded(m, t) && Spent(m1, m')
    ensures Spent(m, m')
  {
    hide CandleIs;
  }

  lemma {:induction false} StartingSpends(m: Machine, t: int, now: int)
    requires m.flight.None? && t in m.readyToCommit
    ensures Spent(m, StartCommit(m.(readyToCommit := m.readyToCommit - {t}), m.readyToCommit[t], now))
  {
    hide TokenValid, FaultBlocks, CandleConstructible, StartCommit;
    var c := m.readyToCommit[t];
    assert InQueue(m.readyToCommit, c);
    StartCarries(m.(readyToCommit := m.readyToCommit - {t}), c, now);
    hide CandleIs;
  }

  lemma {:induction false} StartCarries(m: Machine, c: Candidate, now: int)
    ensures var m' := StartCommit(m, c, now);
            && SameEvidence(m, m') && m'.readyToCommit == m.readyToCommit
            && (Writing(m') ==>
                  var f := m'.flight.value;
                  && f.candidate == c
                  && (c.origin == LIVE_FINALIZATION ==>
                        var k := Key(m.pair, c.openTimeMs); k in m.working.working && CandleIs(f.candle, m.working.working[k]))
                  && (c.origin == REST_RECOVERY ==> c.prebuilt == Some(f.candle)))
  {
    hide DraftOf, CandleIs;
    DraftCarries(m, c, now);
  }

  lemma {:induction false} DraftCarries(m: Machine, c: Candidate, now: int)
    ensures DraftOf(m, c, now).Final? ==>
              var candle := DraftOf(m, c, now).candle;
              && (c.origin == LIVE_FINALIZATION ==>
                    var k := Key(m.pair, c.openTimeMs); k in m.working.working && CandleIs(candle, m.working.working[k]))
              && (c.origin == REST_RECOVERY ==> c.prebuilt == Some(candle))
  {
    hide TokenValid, FaultBlocks, CandleConstructible;
  }

  // ---------------------------------------------------------- one reaction

  /** Recovered candidates join the queue only with the record just handed over. */
  ghost predicate Queues(m: Machine, m': Machine, records: set<Candle>) {
    forall t <- m'.readyToCommit :: var c := m'.readyToCommit[t];
      c.origin == REST_RECOVERY ==> InQueue(m.readyToCommit, c) || (c.prebuilt.Some? && c.prebuilt.value in records)
  }

  /** A live write carries the forming candle of its minute; a recovered one a record from the queue or just handed over. */
  ghost predicate Writes(m: Machine, m': Machine, records: set<Candle>) {
    StartsWrite(m, m') ==>
      var f := m'.flight.value;
      && (f.candidate.origin == LIVE_FINALIZATION ==>
            var k := Key(m.pair, f.candidate.openTimeMs);
            k in m.working.working && CandleIs(f.candle, m.working.working[k]))
      && (f.candidate.origin == REST_RECOVERY ==>
            f.candidate.prebuilt == Some(f.candle) && (InQueue(m.readyToCommit, f.candidate) || f.candle in records))
  }

  ghost predicate Sources(m: Machine, s: Stimulus, m': Machine) {
    Moves(m, m', PacketsOf(s)) && Queues(m, m', RecordsOf(s)) && Writes(m, m', RecordsOf(s))
  }

  lemma {:induction false} WithinQueue(q: map<int, Candidate>, q': map<int, Candidate>)
    requires Within(q', q)
    ensures forall t <- q' :: InQueue(q, q'[t])
  {
  }

  lemma {:induction false} QuietSources(m: Machine, s: Stimulus, m': Machine)
    requires Quiet(m, m') && Moves(m, m', PacketsOf(s))
    ensures Sources(m, s, m')
  {
    WithinQueue(m.readyToCommit, m'.readyToCommit);
    hide Moves;
  }

  lemma {:induction false} SpentSources(m: Machine, s: Stimulus, m1: Machine, m': Machine)
    requires m1 == m.(timers := m1.timers, waiters := m1.waiters, nextWaiter := m1.nextWaiter, flight := m1.flight,
                      pendingFinalizations := m1.pendingFinalizations, readyToCommit := m1.readyToCommit)
    requires m1.flight == m.flight || (!Writing(m) && m1.flight.None?)
    requires forall t <- m1.readyToCommit :: var c := m1.readyToCommit[t];
               InQueue(m.readyToCommit, c) || c.origin == LIVE_FINALIZATION || (c.prebuilt.Some? && c.prebuilt.value in RecordsOf(s))
    requires Spent(m1, m')
    ensures Sources(m, s, m')
  {
    SameMoves(m, m', PacketsOf(s));
    hide Moves, CandleIs;
  }

  lemma {:induction false} EnqueueingSources(m: Machine, s: Stimulus, m1: Machine, c: Candidate, now: int)
    requires m1 == m.(timers := m1.timers, waiters := m1.waiters, nextWaiter := m1.nextWaiter)
    requires c.origin == LIVE_FINALIZATION || (c.prebuilt.Some? && c.prebuilt.value in RecordsOf(s))
    ensures Sources(m, s, Enqueue(m1, c, now))
  {
    hide Drain, Spent, Sources, RecordsOf;
    var queued := m1.(readyToCommit := m1.readyToCommit[c.openTimeMs := c]);
    DrainSpends(queued, now);
    if Enqueue(m1, c, now) == Drain(queued, now) {
      SpentSources(m, s, queued, Drain(queued, now));
    } else {
      SameSources(m, s, m1);
    }
  }

  lemma {:induction false} SameSources(m: Machine, s: Stimulus, m': Machine)
    requires SameEvidence(m, m') && m'.flight == m.flight && Within(m'.readyToCommit, m.readyToCommit)
    ensures Sources(m, s, m')
  {
    SameMoves(m, m', PacketsOf(s));
    hide Moves;
  }

  lemma {:induction false} GraceSources(m: Machine, id: nat, now: int)
    ensures Sources(m, GraceTimer(id, now), GraceElapsed(m, id, now))
  {
    hide Sources, ScheduleFinalization, Enqueue, TokenValid;
    var s := GraceTimer(id, now);
    SameSources(m, s, m);
    if id in m.timers {
      var Timer(t, token) := m.timers[id];
      var m1 := m.(timers := m.timers - {id});
      SameSources(m, s, m1);
      if t in m.pendingFinalizations {
        SameSources(m, s, m1.(pendingFinalizations := m.pendingFinalizations - {t}));
        ReschedulingSources(m, s, m1, t, m.pendingFinalizations[t].providerEventTimeMs);
        EnqueueingSources(m, s, m1, Candidate(t, LIVE_FINALIZATION, token, None), now);
      }
    }
  }

  lemma {:induction false} ReschedulingSources(m: Machine, s: Stimulus, m1: Machine, openTimeMs: int, providerEventTimeMs: int)
    requires m1 == m.(timers := m1.timers)
    ensures Sources(m, s, ScheduleFinalization(m1, openTimeMs, providerEventTimeMs))
  {
    SchedulingKeepsEvidence(m1, openTimeMs, providerEventTimeMs);
    SameSources(m, s, ScheduleFinalization(m1, openTimeMs, providerEventTimeMs));
  }

  lemma {:induction false} AnswerSources(m: Machine, ok: bool)
    ensures Sources(m, CommitAnswered(ok), CommitSettled(m, ok))
  {
    AnsweringLoses(m, ok);
    LosesMoves(m, CommitSettled(m, ok), {});
    hide Moves, Loses, Deleted, TokenValid;
  }

  lemma {:induction false} CleanupSources(m: Machine, now: int)
    ensures Sources(m, CommitCleanup(now), CommitFinally(m, now))
  {
    hide Sources, Spent, Drain;
    SameSources(m, CommitCleanup(now), m);
    if m.flight.Some? && m.flight.value.Returned? {
      var t := m.flight.value.candidate.openTimeMs;
      var m1 := ResolveSettled(m.(flight := None, pendingFinalizations := m.pendingFinalizations - {t}), t);
      DrainSpends(m1, now);
      SpentSources(m, CommitCleanup(now), m1, Drain(m1, now));
    }
  }

  lemma {:induction false} EnqueuingSources(m: Machine, a: Application, answer: ReadAnswer, now: int)
    requires a.phase.Enqueuing?
    ensures Sources(m, ApplicationResumed(a, answer, now), EnqueueRecovered(m, a, now).machine)
  {
    hide Sources, Enqueue, LatchFatal, EnqueueRecovered, Quiet;
    var s := ApplicationResumed(a, answer, now);
    EnqueuingCases(m, a, now);
    SameSources(m, s, m);
    LatchingIsQuiet(m, CANONICAL_CONFLICT);
    LatchingLoses(m, CANONICAL_CONFLICT);
    LosesMoves(m, LatchFatal(m, CANONICAL_CONFLICT), PacketsOf(s));
    QuietSources(m, s, LatchFatal(m, CANONICAL_CONFLICT));
    if a.phase.rest != [] {
      EnqueueingSources(m, s, Waiting(m, a.phase.rest[0].openTimeMs), Recovered(a, a.phase.rest[0]), now);
    }
  }

  lemma {:induction false} VerifyingSources(m: Machine, s: Stimulus, e: Envelope, token: Token, answer: ReadAnswer)
    ensures Sources(m, s, Verified(m, e, token, answer)) && SameEvidence(m, Verified(m, e, token, answer))
  {
    assert SameEvidence(m, Verified(m, e, token, answer));
    SameSources(m, s, Verified(m, e, token, answer));
    hide Sources, SameValues, TokenValid;
  }

  lemma {:induction false} ReconcilingLoses(m: Machine, a: Application)
    ensures Loses(m, Reconcile(m, a).machine)
  {
    hide SortByMinute;
  }

  lemma {:induction false} ReconcilingSources(m: Machine, s: Stimulus, m1: Machine, a: Application)
    requires SameEvidence(m, m1) && Quiet(m1, Reconcile(m1, a).machine) && m1 == m.(truthFault := m1.truthFault)
    ensures Sources(m, s, Reconcile(m1, a).machine)
  {
    hide Sources, Moves, Loses, Reconcile;
    ReconcilingLoses(m1, a);
    LosesMoves(m1, Reconcile(m1, a).machine, PacketsOf(s));
    SameThenMoves(m, m1, Reconcile(m1, a).machine, PacketsOf(s));
    FaultedSources(m, s, m1, Reconcile(m1, a).machine);
  }

  lemma {:induction false} FaultedSources(m: Machine, s: Stimulus, m1: Machine, m': Machine)
    requires m1 == m.(truthFault := m1.truthFault) && Quiet(m1, m') && Moves(m, m', PacketsOf(s))
    ensures Sources(m, s, m')
  {
    WithinQueue(m.readyToCommit, m'.readyToCommit);
    hide Moves;
  }

  lemma {:induction false} ResumeSources(m: Machine, a: Application, answer: ReadAnswer, now: int, cfg: Config)
    ensures Sources(m, ApplicationResumed(a, answer, now), Resume(m, a, answer, now, cfg).machine)
  {
    hide Sources, EnqueueRecovered, Verified, HandleEnvelope, BatchSettled, LateReconciled, TokenValid;
    var s := ApplicationResumed(a, answer, now);
    SameSources(m, s, m);
    match a.phase
    case Enqueuing(_, _) => EnqueuingSources(m, a, answer, now);
    case CheckingOverlap(_, _, _) => SameSources(m, s, OverlapChecked(m, a, answer).machine);
    case Settling(_) => SettlingSources(m, a, s);
    case Reconciling(_, _) => LateSources(m, a, s, answer);
    case Draining(items) =>
      if items != [] {
        PacketSources(m, s, items[0], now, cfg);
      }
    case DrainVerifying(late, lateToken, _) => VerifyingSources(m, s, late, lateToken, answer);
  }

  lemma {:induction false} SettlingSources(m: Machine, a: Application, s: Stimulus)
    requires a.phase.Settling?
    ensures Sources(m, s, BatchSettled(m, a).machine)
  {
    hide Sources, Reconcile, Quiet, TokenValid;
    var m1 := if m.truthFault == RECOVERY_INCOMPLETE then m.(truthFault := NONE) else m;
    SameSources(m, s, m);
    SameSources(m, s, m1);
    ReconcileIsQuiet(m1, a);
    ReconcilingSources(m, s, m1, a);
  }

  lemma {:induction false} LateSources(m: Machine, a: Application, s: Stimulus, answer: ReadAnswer)
    requires a.phase.Reconciling?
    ensures Sources(m, s, LateReconciled(m, a, answer).machine)
  {
    hide Sources, Verified, Reconcile, Quiet, TokenValid;
    var m1 := Verified(m, a.phase.late, a.phase.lateToken, answer);
    VerifyingSources(m, s, a.phase.late, a.phase.lateToken, answer);
    VerifiedFault(m, a.phase.late, a.phase.lateToken, answer);
    ReconcileIsQuiet(m1, a);
    ReconcilingSources(m, s, m1, a);
  }

  lemma {:induction false} VerifiedFault(m: Machine, e: Envelope, token: Token, answer: ReadAnswer)
    ensures Verified(m, e, token, answer) == m.(truthFault := Verified(m, e, token, answer).truthFault)
  {
    hide TokenValid, SameValues;
  }

  lemma {:induction false} PacketSources(m: Machine, s: Stimulus, e: Envelope, now: int, cfg: Config)
    requires e in PacketsOf(s)
    ensures Sources(m, s, HandleEnvelope(m, e, now, cfg).0)
  {
    hide Sources, HandleEnvelope, Quiet;
    PacketIsQuiet(m, e, now, cfg);
    PacketMoves(m, e, now, cfg);
    MovesMore(m, HandleEnvelope(m, e, now, cfg).0, {e}, PacketsOf(s));
    QuietSources(m, s, HandleEnvelope(m, e, now, cfg).0);
  }

  lemma {:induction false} MovesMore(m: Machine, m': Machine, d: set<Envelope>, d': set<Envelope>)
    requires Moves(m, m', d) && d <= d'
    ensures Moves(m, m', d')
  {
    hide Becomes;
    forall k | k in m'.working.working ensures Stays(m, m', k) || exists e <- d' :: Becomes(m, m', k, e) {
      if !Stays(m, m', k) {
        var e :| e in d && Becomes(m, m', k, e);
      }
    }
  }

  /** Every reaction of a machine, whatever the stimulus: evidence changes only by the packet delivered, the queue only by the
      record delivered, and what is written comes from the one or the other. */
  lemma {:induction false} ReactionSources(m: Machine, s: Stimulus, cfg: Config)
    ensures Sources(m, s, React(m, s, cfg).machine)
  {
    hide Sources, Quiet, HandleEnvelope, GraceElapsed, CommitSettled, CommitFinally, EnterRecovery, LatchRecoveryFault, ReconnectBarrier,
      AwaitReconnectHandoff, Verified, Resume, Stop, Moves, Loses;
    match s
    case Packet(e, now) => PacketSources(m, s, e, now, cfg);
    case GraceTimer(id, now) => GraceSources(m, id, now);
    case CommitAnswered(ok) => AnswerSources(m, ok);
    case CommitCleanup(now) => CleanupSources(m, now);
    case RecoveryEntered =>
      EnteringIsQuiet(m);
      EnteringKeepsEvidence(m);
      SameMoves(m, EnterRecovery(m), {});
      QuietSources(m, s, EnterRecovery(m));
    case RecoveryFaulted(fault, epoch) => PlainSources(m, s, LatchRecoveryFault(m, fault, epoch), fault, epoch, NO_BASELINE);
    case Reconnected(g) =>
      BarrierIsQuiet(m, g);
      BarrierLoses(m, g);
      LosesMoves(m, ReconnectBarrier(m, g), {});
      QuietSources(m, s, ReconnectBarrier(m, g));
    case HandoffAwaited(result) => PlainSources(m, s, AwaitReconnectHandoff(m, result), NONE, 0, result);
    case HistoricalRead(e, token, answer) => VerifyingSources(m, s, e, token, answer);
    case ApplicationResumed(a, answer, now) => ResumeSources(m, a, answer, now, cfg);
    case Stopped =>
      StoppingIsQuiet(m);
      StoppingLoses(m);
      LosesMoves(m, Stop(m), {});
      QuietSources(m, s, Stop(m));
  }

  lemma {:induction false} PlainSources(m: Machine, s: Stimulus, m': Machine, fault: TruthFault, epoch: int, result: EmptyReconciliation)
    requires m' == LatchRecoveryFault(m, fault, epoch) || m' == AwaitReconnectHandoff(m, result)
    ensures Sources(m, s, m')
  {
    hide Sources;
    SameSources(m, s, m');
  }

  // ------------------------------------------------------------ whole lives

  /** The packet that a stimulus makes the machine handle, and when: one that arrives, or the next one of a buffer being drained
      while the recovery that drains it still has its say. */
  predicate Handles(m: Machine, s: Stimulus, e: Envelope, now: int) {
    || s == Packet(e, now)
    || (&& s.ApplicationResumed? && s.application.phase.Draining? && s.application.phase.items != [] && s.now == now
        && s.application.phase.items[0] == e && !m.stopped
        && s.application.token.canonicalEpoch == m.canonicalEpoch && s.application.token.recoveryEpoch == m.recoveryEpoch
        && (m.generationId.Some? ==>
              e.generationId >= m.generationId.value
              && (s.application.token.generationId.None? || s.application.token.generationId == m.generationId)))
  }

  lemma {:induction false} HandledIsTaken(m: Machine, s: Stimulus, cfg: Config, e: Envelope, now: int)
    requires Handles(m, s, e, now) && Takeable(m, e, now, cfg)
    ensures Taken(React(m, s, cfg).machine, e)
  {
    hide Takeable, Taken, HandleEnvelope;
    PacketMoves(m, e, now, cfg);
  }

  /** No packet of the minute that the machine could take at step `i` was newer than `s`. */
  ghost predicate NoneNewer(m: Machine, x: Stimulus, cfg: Config, s: Snapshot) {
    forall e, now :: Handles(m, x, e, now) && Takeable(m, e, now, cfg) && e.pair == s.pair && e.openTimeMs == s.openTimeMs ==>
      e.providerEventTimeMs <= s.providerEventTimeMs
  }

  lemma {:induction false} StepTakesNewest(m: Machine, x: Stimulus, cfg: Config, k: Key)
    requires var m' := React(m, x, cfg).machine; k in m'.working.working && KeyOf(m'.working.working[k]) == k
    ensures NoneNewer(m, x, cfg, React(m, x, cfg).machine.working.working[k])
  {
    hide React, Handles, Takeable;
    var s := React(m, x, cfg).machine.working.working[k];
    forall e, now | Handles(m, x, e, now) && Takeable(m, e, now, cfg) && e.pair == s.pair && e.openTimeMs == s.openTimeMs
      ensures e.providerEventTimeMs <= s.providerEventTimeMs {
      HandledIsTaken(m, x, cfg, e, now);
    }
  }

  lemma {:induction false} NewerStill(m: Machine, x: Stimulus, cfg: Config, s: Snapshot, s': Snapshot)
    requires NoneNewer(m, x, cfg, s) && s'.pair == s.pair && s'.openTimeMs == s.openTimeMs
    requires s.providerEventTimeMs <= s'.providerEventTimeMs
    ensures NoneNewer(m, x, cfg, s')
  {
    hide Handles, Takeable;
  }

  /** How a forming candle came about: minute `k` has been forming since step `a`, and the candle carries the packet delivered
      at step `i`; of all packets of the minute that could be taken since then none is newer. */
  ghost predicate Formed(ms: seq<Machine>, ss: seq<Stimulus>, cfg: Config, j: nat, k: Key, a: nat, i: nat, e: Envelope)
    requires |ms| == |ss| + 1 && j < |ms|
  {
    && a <= i < j && k !in ms[a].working.working && (forall x :: a < x <= j ==> k in ms[x].working.working)
    && k == Key(e.pair, e.openTimeMs) && e in PacketsOf(ss[i]) && Carries(ms[j].working.working[k], e)
    && (forall x :: a <= x < j ==> NoneNewer(ms[x], ss[x], cfg, ms[j].working.working[k]))
  }

  lemma {:induction false} FormingCandle(ms: seq<Machine>, ss: seq<Stimulus>, cfg: Config, j: nat, k: Key) returns (a: nat, i: nat, e: Envelope)
    requires Lives(ms, ss, cfg) && ms[0].working.working == map[] && j < |ms| && k in ms[j].working.working
    ensures Formed(ms, ss, cfg, j, k, a, i, e)
  {
    hide React, Invariant, Enabled, Moves, Handles, Takeable, PacketsOf, NoneNewer;
    LifeKeeps(ms, ss, cfg, j);
    FiledInvariant(ms[j], k);
    if j == 0 {
      assert false;
    } else {
      var m, m' := ms[j - 1], ms[j];
      assert LivesOn(m, ss[j - 1], cfg, m');
      ReactionSources(m, ss[j - 1], cfg);
      StepTakesNewest(m, ss[j - 1], cfg, k);
      CandleMoves(m, m', k, PacketsOf(ss[j - 1]));
      if k in m.working.working {
        a, i, e := FormingCandle(ms, ss, cfg, j - 1, k);
        if !Stays(m, m', k) {
          i := j - 1;
          e :| e in PacketsOf(ss[j - 1]) && Becomes(m, m', k, e);
        }
        forall x | a <= x < j ensures NoneNewer(ms[x], ss[x], cfg, m'.working.working[k]) {
          if x < j - 1 {
            NewerStill(ms[x], ss[x], cfg, m.working.working[k], m'.working.working[k]);
          }
        }
      } else {
        a, i := j - 1, j - 1;
        e :| e in PacketsOf(ss[j - 1]) && Becomes(m, m', k, e);
      }
    }
  }

  lemma {:induction false} FiledInvariant(m: Machine, k: Key)
    requires Invariant(m) && k in m.working.working
    ensures KeyOf(m.working.working[k]) == k
  {
  }

  lemma {:induction false} CandleMoves(m: Machine, m': Machine, k: Key, d: set<Envelope>)
    requires Moves(m, m', d) && k in m'.working.working
    ensures Stays(m, m', k) || exists e <- d :: Becomes(m, m', k, e)
  {
  }

  /** What a live commit writes. In every life of a new machine, when a live commit hands over its candle, the candle carries,
      field by field, a packet delivered for its minute at some step `i`, and since the minute began to form (at step `a`)
      no newer packet for it could be taken. */
  lemma {:induction false} LiveCommitIsNewestPacket(ms: seq<Machine>, ss: seq<Stimulus>, cfg: Config, j: nat) returns (a: nat, i: nat, e: Envelope)
    requires Lives(ms, ss, cfg) && ms[0] == NewMachine(ms[0].pair, ms[0].latest) && j < |ss| && StartsWrite(ms[j], ms[j + 1])
    requires ms[j + 1].flight.value.candidate.origin == LIVE_FINALIZATION
    ensures var candle := ms[j + 1].flight.value.candle;
            var k := Key(candle.pair, candle.openTimeMs);
            && candle.openTimeMs == ms[j + 1].flight.value.candidate.openTimeMs && CandleCarries(candle, e)
            && Formed(ms, ss, cfg, j, k, a, i, e)
  {
    hide React, Invariant, Enabled, Moves, Queues, Formed;
    LifeKeeps(ms, ss, cfg, j);
    assert LivesOn(ms[j], ss[j], cfg, ms[j + 1]);
    ReactionSources(ms[j], ss[j], cfg);
    var f := ms[j + 1].flight.value;
    var k := Key(ms[j].pair, f.candidate.openTimeMs);
    FiledInvariant(ms[j], k);
    a, i, e := FormingCandle(ms, ss, cfg, j, k);
    FormedCarries(ms, ss, cfg, j, k, a, i, e);
  }

  lemma {:induction false} FormedCarries(ms: seq<Machine>, ss: seq<Stimulus>, cfg: Config, j: nat, k: Key, a: nat, i: nat, e: Envelope)
    requires |ms| == |ss| + 1 && j < |ms| && Formed(ms, ss, cfg, j, k, a, i, e)
    ensures k in ms[j].working.working && Carries(ms[j].working.working[k], e)
  {
    hide NoneNewer;
  }

  /** A recovered candidate in the queue has the record of some earlier hand-over. */
  lemma {:induction false} QueuedRecord(ms: seq<Machine>, ss: seq<Stimulus>, cfg: Config, j: nat, c: Candidate) returns (i: nat)
    requires Lives(ms, ss, cfg) && ms[0].readyToCommit == map[] && j < |ms| && InQueue(ms[j].readyToCommit, c) && c.origin == REST_RECOVERY
    ensures i < j && c.prebuilt.Some? && c.prebuilt.value in RecordsOf(ss[i])
  {
    hide React, Invariant, Enabled, Moves, Writes, RecordsOf;
    if j == 0 {
      assert false;
    } else {
      assert LivesOn(ms[j - 1], ss[j - 1], cfg, ms[j]);
      ReactionSources(ms[j - 1], ss[j - 1], cfg);
      if InQueue(ms[j - 1].readyToCommit, c) {
        i := QueuedRecord(ms, ss, cfg, j - 1, c);
      } else {
        i := j - 1;
      }
    }
  }

  /** What a recovered commit writes: exactly a record that a recovery handed over. */
  lemma {:induction false} RecoveredCommitIsRecord(ms: seq<Machine>, ss: seq<Stimulus>, cfg: Config, j: nat) returns (i: nat)
    requires Lives(ms, ss, cfg) && ms[0] == NewMachine(ms[0].pair, ms[0].latest) && j < |ss| && StartsWrite(ms[j], ms[j + 1])
    requires ms[j + 1].flight.value.candidate.origin == REST_RECOVERY
    ensures i <= j && ss[i].ApplicationResumed? && ss[i].application.phase.Enqueuing? && ss[i].application.phase.rest != []
    ensures ss[i].application.phase.rest[0] == ms[j + 1].flight.value.candle
  {
    hide React, Invariant, Enabled, Moves, Queues;
    assert LivesOn(ms[j], ss[j], cfg, ms[j + 1]);
    ReactionSources(ms[j], ss[j], cfg);
    var f := ms[j + 1].flight.value;
    if f.candle in RecordsOf(ss[j]) {
      i := j;
    } else {
      i := QueuedRecord(ms, ss, cfg, j, f.candidate);
    }
  }

  // ---------------------------------------------------------- contradictions

  /** Two candles' values differ; a quote volume that either does not know does not. */
  predicate Differ(a: Values, b: Values) {
    || a.open != b.open || a.high != b.high || a.low != b.low || a.close != b.close || a.volume != b.volume
    || (a.quoteVolume.Some? && b.quoteVolume.Some? && a.quoteVolume != b.quoteVolume)
  }

  /** A token's work is still wanted: the machine runs, in the same epoch and no other generation. */
  predicate SameStream(m: Machine, token: Token) {
    && !m.stopped && token.canonicalEpoch == m.canonicalEpoch
    && (token.generationId.Some? && m.generationId.Some? ==> token.generationId == m.generationId)
  }

  /** For a recovery, also in the same recovery epoch. */
  predicate Honoured(m: Machine, token: Token) {
    SameStream(m, token) && token.recoveryEpoch == m.recoveryEpoch
  }

  /** When a late packet for a final minute is a conflict: its minute was already over when it was observed and the stored
      candle says otherwise, or nothing is stored. Nothing but the fault ever changes. */
  lemma {:induction false} LateConflictExactly(m: Machine, e: Envelope, token: Token, answer: ReadAnswer)
    ensures Verified(m, e, token, answer) == m.(truthFault :=
              if !Honoured(m, token) then m.truthFault
              else if answer.ReadFailed? then PERSISTENCE_FAILURE
              else if answer.Missing? then CANONICAL_CONFLICT
              else if e.providerEventTimeMs >= answer.candle.openTimeMs + MINUTE_MS && Differ(answer.candle.values, e.values) then CANONICAL_CONFLICT
              else m.truthFault)
  {
  }

  /** When a record that overlaps the stored minutes is a conflict: the stored candle is of another pair or minute, says
      otherwise, or is missing. Otherwise the application goes on with the rest. */
  lemma {:induction false} OverlapConflictExactly(m: Machine, a: Application, answer: ReadAnswer)
    requires a.phase.CheckingOverlap?
    ensures var r := OverlapChecked(m, a, answer);
            var c := a.phase.candle;
            && r.effect == NoEffect
            && (answer.ReadFailed? ==> r.machine == m && r.next == Threw)
            && (!answer.ReadFailed? && !Honoured(m, a.token) ==> r.machine == m && r.next == Finished)
            && (!answer.ReadFailed? && Honoured(m, a.token) ==>
                  if answer.Missing? || answer.candle.pair != c.pair || answer.candle.openTimeMs != c.openTimeMs
                     || Differ(answer.candle.values, c.values)
                  then r.machine == m.(truthFault := CANONICAL_CONFLICT) && r.next == Finished
                  else r.machine == m && r.next == Continue(Application(a.token, Enqueuing(a.phase.rest, a.phase.awaiting))))
  {
  }

  // ------------------------------------------------------ the recovery buffer

  /** While a recovery is active the newest packet of every minute is kept, unless a fault has emptied the buffer. */
  lemma {:induction false} BufferKeepsNewest(m: Machine, e: Envelope, cfg: Config)
    ensures var m' := BufferEnvelope(m, e, cfg);
            || (m'.truthFault in {CANONICAL_CONFLICT, BUFFER_OVERFLOW} && m'.recoveryBuffer == [])
            || (&& (exists x <- m'.recoveryBuffer :: x.openTimeMs == e.openTimeMs && x.providerEventTimeMs >= e.providerEventTimeMs)
                && (forall x <- m.recoveryBuffer :: x.openTimeMs != e.openTimeMs ==> x in m'.recoveryBuffer)
                && |m'.recoveryBuffer| <= (if |m.recoveryBuffer| >= cfg.maxRecoveryBuffer then |m.recoveryBuffer| else |m.recoveryBuffer| + 1))
  {
    hide Observe, LatchFatal, LatchEvidence;
    var (w, fault) := Observe(m.working, SnapshotOf(e));
    var m1 := m.(working := w);
    LatchingEmpties(m1, CANONICAL_CONFLICT);
    LatchingEmpties(m1, BUFFER_OVERFLOW);
    if fault.Some? {
      EvidenceEmpties(m1, fault.value);
    }
    var i := BufferIndex(m.recoveryBuffer, e.openTimeMs);
    hide BufferIndex;
    if i < |m.recoveryBuffer| {
      Replacing(m.recoveryBuffer, i, e);
    } else {
      assert (m.recoveryBuffer + [e])[|m.recoveryBuffer|] == e;
    }
  }

  lemma {:induction false} LatchingEmpties(m: Machine, fault: TruthFault)
    ensures LatchFatal(m, fault).recoveryBuffer == [] && LatchFatal(m, fault).truthFault == fault
  {
    LatchingLoses(m, fault);
    ForgettingLoses(ClearAllPending(m.(truthFault := fault)));
  }

  lemma {:induction false} EvidenceEmpties(m: Machine, fault: EvidenceFault)
    ensures LatchEvidence(m, fault).recoveryBuffer == [] && LatchEvidence(m, fault).truthFault in {CANONICAL_CONFLICT, BUFFER_OVERFLOW}
  {
    hide LatchFatal;
    LatchingEmpties(m, CANONICAL_CONFLICT);
    LatchingEmpties(m, BUFFER_OVERFLOW);
  }

  lemma {:induction false} Replacing(buffer: seq<Envelope>, i: nat, e: Envelope)
    requires i < |buffer| && buffer[i].openTimeMs == e.openTimeMs
    ensures e in buffer[i := e] && buffer[i] in buffer
    ensures forall x <- buffer :: x.openTimeMs != e.openTimeMs ==> x in buffer[i := e]
  {
    assert buffer[i := e][i] == e;
    forall x | x in buffer && x.openTimeMs != e.openTimeMs ensures x in buffer[i := e] {
      var k :| 0 <= k < |buffer| && buffer[k] == x;
      assert buffer[i := e][k] == x;
    }
  }

  predicate Ascending(items: seq<Envelope>) {
    forall i, j :: 0 <= i < j < |items| ==> items[i].openTimeMs <= items[j].openTimeMs
  }

  /** A drained buffer is handed over minute by minute, and nothing of it is lost. */
  lemma {:induction false} DrainedInOrder(items: seq<Envelope>)
    ensures multiset(SortByMinute(items)) == multiset(items) && Ascending(SortByMinute(items))
  {
    hide InsertByMinute, Ascending;
    if items == [] {
      NothingAscends();
    } else {
      var front, last := items[..|items| - 1], items[|items| - 1];
      DrainedInOrder(front);
      InsertedContents(last, SortByMinute(front));
      InsertedInOrder(last, SortByMinute(front));
      assert items == front + [last];
    }
  }

  lemma {:induction false} NothingAscends()
    ensures Ascending([])
  {
  }

  lemma {:induction false} InsertedContents(e: Envelope, sorted: seq<Envelope>)
    ensures multiset(InsertByMinute(e, sorted)) == multiset(sorted) + multiset{e}
  {
    if sorted != [] {
      var front, last := sorted[..|sorted| - 1], sorted[|sorted| - 1];
      assert sorted == front + [last];
      if last.openTimeMs > e.openTimeMs {
        InsertedContents(e, front);
      }
    }
  }

  lemma {:induction false} InsertedInOrder(e: Envelope, sorted: seq<Envelope>)
    requires Ascending(sorted)
    ensures Ascending(InsertByMinute(e, sorted))
  {
    hide Ascending;
    if sorted == [] {
      assert InsertByMinute(e, sorted) == [] + [e];
      NothingAscends();
      Appended([], e);
    } else {
      var front, last := sorted[..|sorted| - 1], sorted[|sorted| - 1];
      FrontAscends(sorted);
      if last.openTimeMs <= e.openTimeMs {
        Appended(sorted, e);
      } else {
        InsertedInOrder(e, front);
        InsertedContents(e, front);
        var r := InsertByMinute(e, front);
        forall x | x in r ensures x.openTimeMs <= last.openTimeMs {
          assert x in multiset(r);
        }
        Appended(r, last);
      }
    }
  }

  lemma {:induction false} FrontAscends(sorted: seq<Envelope>)
    requires Ascending(sorted) && sorted != []
    ensures Ascending(sorted[..|sorted| - 1]) && forall x <- sorted :: x.openTimeMs <= sorted[|sorted| - 1].openTimeMs
  {
  }

  lemma {:induction false} Appended(sorted: seq<Envelope>, e: Envelope)
    requires Ascending(sorted) && forall x <- sorted :: x.openTimeMs <= e.openTimeMs
    ensures Ascending(sorted + [e])
  {
  }
}
