/** Where every stored row comes from, over whole runs of the engine: a packet that arrived or a record that REST replied,
    field by field, and of that very minute. */
module EngineProvenance {
  import opened Common
  import opened WorkingCandle
  import opened PairState
  import opened PairStateTheorems
  import opened CandleProvenance
  import opened Engine
  import opened EngineInvariants

  // ------------------------------------------------------------ vocabulary

  predicate FromPackets(c: Candle, arrived: set<Envelope>) {
    exists e <- arrived :: CandleCarries(c, e)
  }

  /** What a machine holds comes from packets that have arrived and records that have been replied. */
  ghost predicate MachineSourced(m: Machine, arrived: set<Envelope>, replied: set<Candle>) {
    && (forall k <- m.working.working :: CarriedBy(m.working.working[k], arrived))
    && (forall e <- m.recoveryBuffer :: e in arrived)
    && (forall t <- m.readyToCommit :: m.readyToCommit[t].origin == REST_RECOVERY ==>
          m.readyToCommit[t].prebuilt.Some? && m.readyToCommit[t].prebuilt.value in replied)
  }

  predicate CarriedBy(s: Snapshot, arrived: set<Envelope>) {
    exists e <- arrived :: Carries(s, e)
  }

  predicate WriteSourced(x: Candidate, c: Candle, arrived: set<Envelope>, replied: set<Candle>) {
    match x.origin
    case LIVE_FINALIZATION => FromPackets(c, arrived)
    case REST_RECOVERY => c in replied
  }

  predicate PhaseSourced(p: Phase, arrived: set<Envelope>, replied: set<Candle>) {
    match p
    case Enqueuing(rest, _) => forall c <- rest :: c in replied
    case CheckingOverlap(c, rest, _) => c in replied && forall c <- rest :: c in replied
    case Settling(_) => true
    case Reconciling(late, _) => late in arrived
    case Draining(items) => forall e <- items :: e in arrived
    case DrainVerifying(late, _, items) => late in arrived && forall e <- items :: e in arrived
  }

  predicate ProgressSourced(p: Progress, arrived: set<Envelope>, replied: set<Candle>) {
    p.Applying? ==> PhaseSourced(p.application.phase, arrived, replied)
  }

  /** A row that the engine has added. */
  predicate RowSourced(store: map<int, Candle>, t: int, arrived: set<Envelope>, replied: set<Candle>)
    requires t in store
  {
    store[t].openTimeMs == t && (FromPackets(store[t], arrived) || store[t] in replied)
  }

  ghost predicate Sourced(w: World, base: map<int, Candle>, arrived: set<Envelope>, replied: set<Candle>) {
    && (forall i :: 0 <= i < |w.machines| ==> MachineSourced(w.machines[i].machine, arrived, replied))
    && (forall k :: 0 <= k < |w.writes| ==> WriteSourced(w.writes[k].candidate, w.writes[k].candle, arrived, replied))
    && (forall k :: 0 <= k < |w.recoveries| ==> ProgressSourced(w.recoveries[k].progress, arrived, replied))
    && (forall k :: 0 <= k < |w.lookups| ==> w.lookups[k].late in arrived)
    && (forall k :: 0 <= k < |w.dispatches| ==> w.dispatches[k].envelope in arrived)
    && (forall t <- w.store :: (t in base && w.store[t] == base[t]) || RowSourced(w.store, t, arrived, replied))
  }

  // ----------------------------------------------------------- one machine

  /** The stimulus hands over nothing that has not arrived. */
  ghost predicate StimulusSourced(s: Stimulus, arrived: set<Envelope>, replied: set<Candle>) {
    match s
    case Packet(e, _) => e in arrived
    case ApplicationResumed(a, _, _) => PhaseSourced(a.phase, arrived, replied)
    case _ => true
  }

  lemma {:induction false} DeliveredHaveArrived(s: Stimulus, arrived: set<Envelope>, replied: set<Candle>)
    requires StimulusSourced(s, arrived, replied)
    ensures PacketsOf(s) <= arrived && RecordsOf(s) <= replied
  {
  }

  lemma {:induction false} ReactionKeepsSources(m: Machine, s: Stimulus, cfg: Config, arrived: set<Envelope>, replied: set<Candle>)
    requires MachineSourced(m, arrived, replied) && StimulusSourced(s, arrived, replied)
    ensures var m' := React(m, s, cfg).machine;
            MachineSourced(m', arrived, replied)
            && (StartsWrite(m, m') ==> WriteSourced(m'.flight.value.candidate, m'.flight.value.candle, arrived, replied))
  {
    hide React;
    ReactionSources(m, s, cfg);
    DeliveredHaveArrived(s, arrived, replied);
    var m' := React(m, s, cfg).machine;
    EvidenceKeepsSources(m, m', PacketsOf(s), arrived, replied);
    QueueKeepsSources(m, m', RecordsOf(s), arrived, replied);
    WriteKeepsSources(m, m', RecordsOf(s), arrived, replied);
    hide Moves, Queues, Writes, CarriedBy, FromPackets;
  }

  lemma {:induction false} EvidenceKeepsSources(m: Machine, m': Machine, d: set<Envelope>, arrived: set<Envelope>, replied: set<Candle>)
    requires MachineSourced(m, arrived, replied) && Moves(m, m', d) && d <= arrived
    ensures forall k <- m'.working.working :: CarriedBy(m'.working.working[k], arrived)
    ensures forall e <- m'.recoveryBuffer :: e in arrived
  {
    hide Carries;
    forall k | k in m'.working.working ensures CarriedBy(m'.working.working[k], arrived) {
      if !Stays(m, m', k) {
        var e :| e in d && Becomes(m, m', k, e);
      }
    }
  }

  lemma {:induction false} QueueKeepsSources(m: Machine, m': Machine, records: set<Candle>, arrived: set<Envelope>, replied: set<Candle>)
    requires MachineSourced(m, arrived, replied) && Queues(m, m', records) && records <= replied
    ensures forall t <- m'.readyToCommit :: m'.readyToCommit[t].origin == REST_RECOVERY ==>
              m'.readyToCommit[t].prebuilt.Some? && m'.readyToCommit[t].prebuilt.value in replied
  {
    hide CarriedBy;
  }

  lemma {:induction false} WriteKeepsSources(m: Machine, m': Machine, records: set<Candle>, arrived: set<Envelope>, replied: set<Candle>)
    requires MachineSourced(m, arrived, replied) && Writes(m, m', records) && records <= replied
    ensures StartsWrite(m, m') ==> WriteSourced(m'.flight.value.candidate, m'.flight.value.candle, arrived, replied)
  {
    if StartsWrite(m, m') && m'.flight.value.candidate.origin == LIVE_FINALIZATION {
      var f := m'.flight.value;
      var k := Key(m.pair, f.candidate.openTimeMs);
      SnapshotToCandle(m.working.working[k], f.candle, arrived);
    }
    hide CarriedBy, CandleIs, FromPackets;
  }

  lemma {:induction false} SnapshotToCandle(s: Snapshot, c: Candle, arrived: set<Envelope>)
    requires CarriedBy(s, arrived) && CandleIs(c, s)
    ensures FromPackets(c, arrived)
  {
    var e :| e in arrived && Carries(s, e);
    assert CandleCarries(c, e);
  }

  /** What a reaction asks for, and how an application goes on, mentions nothing that has not arrived. */
  ghost predicate ReplySourced(r: Reaction, arrived: set<Envelope>, replied: set<Candle>) {
    && (r.effect.VerifyHistorical? ==> r.effect.envelope in arrived)
    && (r.next.Continue? ==> PhaseSourced(r.next.application.phase, arrived, replied))
  }

  lemma {:induction false} PacketEffect(m: Machine, e: Envelope, now: int, cfg: Config)
    ensures var effect := HandleEnvelope(m, e, now, cfg).1; effect.VerifyHistorical? ==> effect.envelope == e
  {
    hide BufferEnvelope, ApplyWorking, ScheduleFinalization, EnterRecovery, TimeSafe, SourceIsFresh, CurrentOpenTime;
  }

  lemma {:induction false} ReconcileReply(m: Machine, a: Application, arrived: set<Envelope>, replied: set<Candle>)
    requires forall e <- m.recoveryBuffer :: e in arrived
    ensures ReplySourced(Reconcile(m, a), arrived, replied)
  {
    hide SortByMinute;
    DrainedInOrder(m.recoveryBuffer);
    forall e | e in SortByMinute(m.recoveryBuffer) ensures e in m.recoveryBuffer {
      assert e in multiset(SortByMinute(m.recoveryBuffer));
    }
  }

  lemma {:induction false} ReactionReplies(m: Machine, s: Stimulus, cfg: Config, arrived: set<Envelope>, replied: set<Candle>)
    requires MachineSourced(m, arrived, replied) && StimulusSourced(s, arrived, replied)
    ensures ReplySourced(React(m, s, cfg), arrived, replied)
  {
    hide HandleEnvelope, GraceElapsed, CommitSettled, CommitFinally, EnterRecovery, LatchRecoveryFault, ReconnectBarrier,
      AwaitReconnectHandoff, Verified, Resume, Stop, MachineSourced;
    match s
    case Packet(e, now) => PacketEffect(m, e, now, cfg);
    case ApplicationResumed(a, answer, now) => ResumeReplies(m, a, answer, now, cfg, arrived, replied);
    case _ =>
  }

  lemma {:induction false} ResumeReplies(m: Machine, a: Application, answer: ReadAnswer, now: int, cfg: Config, arrived: set<Envelope>, replied: set<Candle>)
    requires MachineSourced(m, arrived, replied) && PhaseSourced(a.phase, arrived, replied)
    ensures ReplySourced(Resume(m, a, answer, now, cfg), arrived, replied)
  {
    hide HandleEnvelope, Verified, Reconcile, Enqueue, LatchFatal, TokenValid, CarriedBy, Compatible;
    match a.phase
    case Settling(_) =>
      var m1 := if m.truthFault == RECOVERY_INCOMPLETE then m.(truthFault := NONE) else m;
      ReconcileReply(m1, a, arrived, replied);
    case Reconciling(late, lateToken) =>
      VerifiedFault(m, late, lateToken, answer);
      ReconcileReply(Verified(m, late, lateToken, answer), a, arrived, replied);
    case Draining(items) =>
      if items != [] {
        PacketEffect(m, items[0], now, cfg);
      }
    case _ =>
  }

  // ---------------------------------------------------------- whole worlds

  /** Only what concerns neither machines, prices nor packets in transit has changed. */
  ghost predicate SameSources(w: World, w': World) {
    && w'.machines == w.machines && w'.store == w.store && w'.recoveries == w.recoveries && w'.lookups == w.lookups
    && w'.dispatches == w.dispatches && |w'.writes| == |w.writes|
    && (forall k :: 0 <= k < |w.writes| ==> w'.writes[k].candidate == w.writes[k].candidate && w'.writes[k].candle == w.writes[k].candle)
  }

  lemma {:induction false} SameSourcesKeep(w: World, w': World, base: map<int, Candle>, arrived: set<Envelope>, replied: set<Candle>)
    requires Sourced(w, base, arrived, replied) && SameSources(w, w')
    ensures Sourced(w', base, arrived, replied)
  {
    hide MachineSourced, WriteSourced, ProgressSourced, FromPackets;
  }

  lemma {:induction false} MoreSources(w: World, base: map<int, Candle>, arrived: set<Envelope>, replied: set<Candle>,
                                       arrived': set<Envelope>, replied': set<Candle>)
    requires Sourced(w, base, arrived, replied) && arrived <= arrived' && replied <= replied'
    ensures Sourced(w, base, arrived', replied')
  {
    hide MachineSourced, WriteSourced, ProgressSourced, FromPackets;
    forall i | 0 <= i < |w.machines| ensures MachineSourced(w.machines[i].machine, arrived', replied') {
      MachineMoreSources(w.machines[i].machine, arrived, replied, arrived', replied');
    }
    forall k | 0 <= k < |w.writes| ensures WriteSourced(w.writes[k].candidate, w.writes[k].candle, arrived', replied') {
      CandleMoreSources(w.writes[k].candidate, w.writes[k].candle, arrived, replied, arrived', replied');
    }
    forall k | 0 <= k < |w.recoveries| ensures ProgressSourced(w.recoveries[k].progress, arrived', replied') {
      ProgressMoreSources(w.recoveries[k].progress, arrived, replied, arrived', replied');
    }
    forall c ensures FromPackets(c, arrived) ==> FromPackets(c, arrived') {
      PacketsMoreSources(c, arrived, arrived');
    }
  }

  lemma {:induction false} PacketsMoreSources(c: Candle, arrived: set<Envelope>, arrived': set<Envelope>)
    requires arrived <= arrived'
    ensures FromPackets(c, arrived) ==> FromPackets(c, arrived')
  {
    hide CandleCarries;
  }

  lemma {:induction false} CandleMoreSources(x: Candidate, c: Candle, arrived: set<Envelope>, replied: set<Candle>,
                                             arrived': set<Envelope>, replied': set<Candle>)
    requires WriteSourced(x, c, arrived, replied) && arrived <= arrived' && replied <= replied'
    ensures WriteSourced(x, c, arrived', replied')
  {
    PacketsMoreSources(c, arrived, arrived');
    hide FromPackets;
  }

  lemma {:induction false} ProgressMoreSources(p: Progress, arrived: set<Envelope>, replied: set<Candle>,
                                               arrived': set<Envelope>, replied': set<Candle>)
    requires ProgressSourced(p, arrived, replied) && arrived <= arrived' && replied <= replied'
    ensures ProgressSourced(p, arrived', replied')
  {
  }

  lemma {:induction false} MachineMoreSources(m: Machine, arrived: set<Envelope>, replied: set<Candle>,
                                              arrived': set<Envelope>, replied': set<Candle>)
    requires MachineSourced(m, arrived, replied) && arrived <= arrived' && replied <= replied'
    ensures MachineSourced(m, arrived', replied')
  {
    hide Carries;
  }

  lemma {:induction false} AbsorbSourced(w: World, i: nat, m: Machine, base: map<int, Candle>, arrived: set<Envelope>, replied: set<Candle>)
    requires i < |w.machines| && Sourced(w, base, arrived, replied) && MachineSourced(m, arrived, replied)
    requires StartsWrite(w.machines[i].machine, m) ==> WriteSourced(m.flight.value.candidate, m.flight.value.candle, arrived, replied)
    ensures Sourced(Absorb(w, i, m), base, arrived, replied)
  {
    hide MachineSourced, WriteSourced, ProgressSourced, FromPackets;
  }

  lemma {:induction false} ExecutingSourced(w: World, fromMs: int, toMs: int, epoch: int, base: map<int, Candle>, arrived: set<Envelope>,
                                            replied: set<Candle>)
    requires Sourced(w, base, arrived, replied) && (w.installed.Some? ==> w.installed.value < |w.machines|)
    ensures Sourced(ExecuteRecovery(w, fromMs, toMs, epoch), base, arrived, replied)
  {
    hide MachineSourced, WriteSourced, PhaseSourced, FromPackets;
  }

  lemma {:induction false} PerformSourced(w: World, i: nat, effect: Effect, base: map<int, Candle>, arrived: set<Envelope>, replied: set<Candle>)
    requires Sourced(w, base, arrived, replied) && (w.installed.Some? ==> w.installed.value < |w.machines|)
    requires effect.VerifyHistorical? ==> effect.envelope in arrived
    ensures Sourced(Perform(w, i, effect), base, arrived, replied)
  {
    hide MachineSourced, WriteSourced, ProgressSourced, FromPackets, ExecuteRecovery;
    match effect
    case RequestRecovery(fromMs, toMs, epoch) => ExecutingSourced(w, fromMs, toMs, epoch, base, arrived, replied);
    case _ =>
  }

  lemma {:induction false} TouchSourced(w: World, i: nat, s: Stimulus, cfg: Config, base: map<int, Candle>, arrived: set<Envelope>,
                                        replied: set<Candle>)
    requires WellFormed(w) && i < |w.machines| && Sourced(w, base, arrived, replied) && StimulusSourced(s, arrived, replied)
    ensures Sourced(Touch(w, i, s, cfg), base, arrived, replied)
  {
    var m := w.machines[i].machine;
    MachineIsSourced(w, i, base, arrived, replied);
    assert w.installed.Some? ==> w.installed.value < |w.machines|;
    hide React, Sourced, MachineSourced, WriteSourced, StimulusSourced, Perform, PhaseSourced, WellFormed;
    var r := React(m, s, cfg);
    ReactionKeepsSources(m, s, cfg, arrived, replied);
    ReactionReplies(m, s, cfg, arrived, replied);
    AbsorbSourced(w, i, r.machine, base, arrived, replied);
    PerformSourced(Absorb(w, i, r.machine), i, r.effect, base, arrived, replied);
  }

  lemma {:induction false} MachineIsSourced(w: World, i: nat, base: map<int, Candle>, arrived: set<Envelope>, replied: set<Candle>)
    requires Sourced(w, base, arrived, replied) && i < |w.machines|
    ensures MachineSourced(w.machines[i].machine, arrived, replied)
  {
  }

  lemma {:induction false} ReconciledSourced(w: World, i: nat, now: int, cfg: Config, base: map<int, Candle>, arrived: set<Envelope>,
                                             replied: set<Candle>)
    requires WellFormed(w) && i < |w.machines| && Sourced(w, base, arrived, replied)
    ensures Sourced(Reconciled(w, i, now, cfg), base, arrived, replied)
  {
    hide Sourced, Touch, ExecuteRecovery;
    var m := w.machines[i].machine;
    var latestClosed := now / MINUTE_MS * MINUTE_MS - MINUTE_MS;
    TouchSourced(w, i, HandoffAwaited(if m.latest.None? then NO_BASELINE else NOTHING_MISSING), cfg, base, arrived, replied);
    if m.reconnectRecoveryFromMs.Some? {
      ExecutingSourced(w, m.reconnectRecoveryFromMs.value, latestClosed, m.recoveryEpoch, base, arrived, replied);
    }
  }

  lemma {:induction false} StopSourced(w: World, cfg: Config, base: map<int, Candle>, arrived: set<Envelope>, replied: set<Candle>)
    requires WellFormed(w) && Sourced(w, base, arrived, replied)
    ensures Sourced(StopEngine(w, cfg), base, arrived, replied)
  {
    hide MachineSourced, WriteSourced, ProgressSourced, FromPackets, Stop;
    if !w.isStopped && w.installed.Some? {
      StoppingKeepsSources(w.machines[w.installed.value].machine, cfg, arrived, replied);
    }
  }

  lemma {:induction false} StoppingKeepsSources(m: Machine, cfg: Config, arrived: set<Envelope>, replied: set<Candle>)
    requires MachineSourced(m, arrived, replied)
    ensures MachineSourced(Stop(m), arrived, replied)
  {
    hide MachineSourced, Stop;
    ReactionKeepsSources(m, Stopped, cfg, arrived, replied);
  }

  lemma {:induction false} RaisingSourced(w: World, g: int, stops: bool, now: int, cfg: Config, base: map<int, Candle>, arrived: set<Envelope>,
                                          replied: set<Candle>)
    requires WellFormed(w) && Sourced(w, base, arrived, replied)
    ensures Sourced(RaiseBarrier(w, g, stops, now, cfg), base, arrived, replied)
  {
    hide Sourced, Touch, Reconciled, StopEngine;
    if w.installed.Some? {
      var i := w.installed.value;
      TouchSourced(w, i, Reconnected(g), cfg, base, arrived, replied);
      var w1 := Touch(w, i, Reconnected(g), cfg);
      StopSourced(w1, cfg, base, arrived, replied);
      ReconciledSourced(w1, i, now, cfg, base, arrived, replied);
    }
  }

  lemma {:induction false} ObservingSourced(w: World, g: int, required: bool, stops: bool, now: int, cfg: Config, base: map<int, Candle>,
                                            arrived: set<Envelope>, replied: set<Candle>)
    requires WellFormed(w) && Sourced(w, base, arrived, replied)
    ensures var r := ObserveGeneration(w, g, required, stops, now, cfg); r.Some? ==> Sourced(r.value, base, arrived, replied)
  {
    SameSourcesKeep(w, Retuned(w, g, false), base, arrived, replied);
    SameSourcesKeep(w, Retuned(w, g, true), base, arrived, replied);
    hide Sourced, RaiseBarrier;
    RaisingSourced(Retuned(w, g, true), g, stops, now, cfg, base, arrived, replied);
  }

  lemma {:induction false} BeginningSourced(w: World, base: map<int, Candle>, arrived: set<Envelope>, replied: set<Candle>)
    requires Sourced(w, base, arrived, replied)
    ensures Sourced(BeginAttempt(w), base, arrived, replied)
  {
    SameSourcesKeep(w, BeginAttempt(w), base, arrived, replied);
  }

  lemma {:induction false} DispatchingSourced(w: World, e: Envelope, now: int, cfg: Config, base: map<int, Candle>, arrived: set<Envelope>,
                                              replied: set<Candle>)
    requires WellFormed(w) && Sourced(w, base, arrived, replied) && e in arrived
    ensures Sourced(DispatchPacket(w, e, now, cfg), base, arrived, replied)
  {
    if w.installed.Some? {
      hide Sourced, Touch;
      TouchSourced(w, w.installed.value, Packet(e, now), cfg, base, arrived, replied);
    } else {
      BeginningSourced(w, base, arrived, replied);
      var w1 := BeginAttempt(w);
      assert w1.dispatches == w.dispatches;
      hide BeginAttempt, MachineSourced, WriteSourced, ProgressSourced, FromPackets;
    }
  }

  lemma {:induction false} EnvelopeSourced(w: World, g: int, required: bool, packet: Option<Envelope>, stops: bool, now: int, cfg: Config,
                                           base: map<int, Candle>, arrived: set<Envelope>, replied: set<Candle>)
    requires WellFormed(w) && Sourced(w, base, arrived, replied) && (packet.Some? ==> packet.value in arrived)
    ensures Sourced(EnvelopeHandled(w, g, required, packet, stops, now, cfg), base, arrived, replied)
  {
    hide Sourced, ObserveGeneration, DispatchPacket, WellFormed;
    ObservingSourced(w, g, required, stops, now, cfg, base, arrived, replied);
    var r := ObserveGeneration(w, g, required, stops, now, cfg);
    if r.Some? && packet.Some? {
      DispatchingSourced(r.value, packet.value, now, cfg, base, arrived, replied);
    }
  }

  lemma {:induction false} InstalledSourced(w: World, k: nat, base: map<int, Candle>, arrived: set<Envelope>, replied: set<Candle>)
    requires Sourced(w, base, arrived, replied) && k < |w.attempts| && w.attempts[k].stage.BaselineRead?
    ensures Sourced(Installed(w, k), base, arrived, replied)
  {
    var a := w.attempts[k];
    var m := Constructed(w, a.stage.failed, a.stage.baseline).(generationId := a.generationId);
    assert MachineSourced(m, arrived, replied);
    hide MachineSourced, WriteSourced, ProgressSourced, FromPackets, Constructed;
  }

  lemma {:induction false} InstallingSourced(w: World, k: nat, now: int, cfg: Config, base: map<int, Candle>, arrived: set<Envelope>,
                                             replied: set<Candle>)
    requires WellFormed(w) && Sourced(w, base, arrived, replied) && k < |w.attempts| && w.attempts[k].stage.BaselineRead?
    ensures Sourced(Install(w, k, now, cfg), base, arrived, replied)
  {
    SameSourcesKeep(w, WithAttempt(w, k, Over), base, arrived, replied);
    InstalledSourced(w, k, base, arrived, replied);
    var w1 := Installed(w, k);
    assert WellFormed(w1) && |w1.machines| == |w.machines| + 1;
    hide Sourced, Touch, Reconciled, Installed, WellFormed;
    var generation := w.attempts[k].generationId;
    if generation.Some? {
      TouchSourced(w1, |w.machines|, Reconnected(generation.value), cfg, base, arrived, replied);
      ReconciledSourced(Touch(w1, |w.machines|, Reconnected(generation.value), cfg), |w.machines|, now, cfg, base, arrived, replied);
    }
  }

  lemma {:induction false} ProgressingSourced(w: World, k: nat, p: Progress, base: map<int, Candle>, arrived: set<Envelope>, replied: set<Candle>)
    requires Sourced(w, base, arrived, replied) && k < |w.recoveries| && ProgressSourced(p, arrived, replied)
    ensures Sourced(WithProgress(w, k, p), base, arrived, replied)
  {
    hide MachineSourced, WriteSourced, ProgressSourced, FromPackets;
  }

  lemma {:induction false} ClosingSourced(w: World, k: nat, base: map<int, Candle>, arrived: set<Envelope>, replied: set<Candle>)
    requires Sourced(w, base, arrived, replied) && k < |w.recoveries|
    ensures Sourced(WithProgress(w, k, Closed), base, arrived, replied)
  {
    hide Sourced;
    ProgressingSourced(w, k, Closed, base, arrived, replied);
  }

  lemma {:induction false} GivingUpSourced(w: World, k: nat, cfg: Config, base: map<int, Candle>, arrived: set<Envelope>, replied: set<Candle>)
    requires WellFormed(w) && Sourced(w, base, arrived, replied) && k < |w.recoveries|
    ensures Sourced(GiveUp(w, k, cfg), base, arrived, replied)
  {
    hide Sourced, Touch;
    ClosingSourced(w, k, base, arrived, replied);
    var r := w.recoveries[k];
    TouchSourced(WithProgress(w, k, Closed), r.machine, RecoveryFaulted(RECOVERY_INCOMPLETE, r.epoch), cfg, base, arrived, replied);
  }

  lemma {:induction false} CoverageIsOfRecords(records: seq<Candle>)
    ensures forall t <- CoverageMap(records) :: CoverageMap(records)[t] in records
  {
    if records != [] {
      CoverageIsOfRecords(records[..|records| - 1]);
      assert records == records[..|records| - 1] + [records[|records| - 1]];
    }
  }

  lemma {:induction false} BatchIsOfCoverage(coverage: map<int, Candle>, t: int, toMs: int, now: int, records: set<Candle>)
    requires forall t <- coverage :: coverage[t] in records
    ensures var batch := Batch(coverage, t, toMs, now); batch.Some? ==> forall c <- batch.value :: c in records
    decreases toMs - t
  {
    if t <= toMs {
      BatchIsOfCoverage(coverage, t + MINUTE_MS, toMs, now, records);
      hide CandleConstructible;
    }
  }

  function NewRecords(reply: RestReply): set<Candle> {
    match reply
    case RestFailed => {}
    case Records(records) => set c <- records
  }

  lemma {:induction false} RepliedSourced(w: World, k: nat, reply: RestReply, now: int, cfg: Config, base: map<int, Candle>,
                                          arrived: set<Envelope>, replied: set<Candle>)
    requires WellFormed(w) && Sourced(w, base, arrived, replied) && k < |w.recoveries| && NewRecords(reply) <= replied
    ensures Sourced(RestAnswered(w, k, reply, now, cfg), base, arrived, replied)
  {
    hide Sourced, GiveUp, Batch, CoverageMap, BeginApplication;
    ClosingSourced(w, k, base, arrived, replied);
    GivingUpSourced(w, k, cfg, base, arrived, replied);
    var r := w.recoveries[k];
    if Authoritative(w, r) && reply.Records? {
      CoverageIsOfRecords(reply.records);
      BatchIsOfCoverage(CoverageMap(reply.records), r.fromMs, r.toMs, now, replied);
      var batch := Batch(CoverageMap(reply.records), r.fromMs, r.toMs, now);
      if batch.Some? {
        BeginningApplicationSourced(w.machines[r.machine].machine, batch.value, r.epoch, arrived, replied);
        var next := BeginApplication(w.machines[r.machine].machine, batch.value, r.epoch);
        if next.Continue? {
          ProgressingSourced(w, k, Applying(next.application), base, arrived, replied);
        }
      }
    }
  }

  lemma {:induction false} BeginningApplicationSourced(m: Machine, candles: seq<Candle>, epoch: int, arrived: set<Envelope>, replied: set<Candle>)
    requires forall c <- candles :: c in replied
    ensures var next := BeginApplication(m, candles, epoch); next.Continue? ==> PhaseSourced(next.application.phase, arrived, replied)
  {
  }

  lemma {:induction false} ResumingSourced(w: World, k: nat, answer: ReadAnswer, now: int, cfg: Config, base: map<int, Candle>,
                                           arrived: set<Envelope>, replied: set<Candle>)
    requires WellFormed(w) && Sourced(w, base, arrived, replied) && k < |w.recoveries| && w.recoveries[k].progress.Applying?
    ensures Sourced(ApplicationResumes(w, k, answer, now, cfg), base, arrived, replied)
  {
    var r := w.recoveries[k];
    var s := ApplicationResumed(r.progress.application, answer, now);
    assert ProgressSourced(r.progress, arrived, replied);
    MachineIsSourced(w, r.machine, base, arrived, replied);
    hide Sourced, Touch, React, MachineSourced, Advance;
    TouchSourced(w, r.machine, s, cfg, base, arrived, replied);
    ReactionReplies(w.machines[r.machine].machine, s, cfg, arrived, replied);
    AdvancingSourced(Touch(w, r.machine, s, cfg), k, React(w.machines[r.machine].machine, s, cfg).next, cfg, base, arrived, replied);
  }

  lemma {:induction false} AdvancingSourced(w: World, k: nat, next: PairState.Next, cfg: Config, base: map<int, Candle>,
                                            arrived: set<Envelope>, replied: set<Candle>)
    requires WellFormed(w) && Sourced(w, base, arrived, replied) && k < |w.recoveries|
    requires next.Continue? ==> PhaseSourced(next.application.phase, arrived, replied)
    ensures Sourced(Advance(w, k, next, cfg), base, arrived, replied)
  {
    hide Sourced, GiveUp;
    ClosingSourced(w, k, base, arrived, replied);
    GivingUpSourced(w, k, cfg, base, arrived, replied);
    if next.Continue? {
      ProgressingSourced(w, k, Applying(next.application), base, arrived, replied);
    }
  }

  lemma {:induction false} LandingSourced(w: World, k: nat, base: map<int, Candle>, arrived: set<Envelope>, replied: set<Candle>)
    requires Sourced(w, base, arrived, replied) && k < |w.writes|
    ensures Sourced(Land(w, k), base, arrived, replied)
  {
    var x := w.writes[k];
    assert FromPackets(x.candle, arrived) || x.candle in replied;
    hide MachineSourced, ProgressSourced, FromPackets;
  }

  lemma {:induction false} RequestedSourced(w: World, fromMs: int, toMs: int, cfg: Config, base: map<int, Candle>, arrived: set<Envelope>,
                                            replied: set<Candle>)
    requires WellFormed(w) && Sourced(w, base, arrived, replied)
    ensures Sourced(RequestRecoveryNow(w, fromMs, toMs, cfg), base, arrived, replied)
  {
    hide Sourced, Touch, ExecuteRecovery;
    if w.installed.Some? {
      var i := w.installed.value;
      TouchSourced(w, i, RecoveryEntered, cfg, base, arrived, replied);
      var w1 := Touch(w, i, RecoveryEntered, cfg);
      ExecutingSourced(w1, fromMs, toMs, w1.machines[i].machine.recoveryEpoch, base, arrived, replied);
    }
  }

  lemma {:induction false} ResumedDispatchSourced(w: World, k: nat, now: int, cfg: Config, base: map<int, Candle>, arrived: set<Envelope>,
                                                  replied: set<Candle>)
    requires WellFormed(w) && Sourced(w, base, arrived, replied) && k < |w.dispatches|
    ensures Sourced(ResumeDispatch(w, k, now, cfg), base, arrived, replied)
  {
    var d := w.dispatches[k];
    var w1 := w.(dispatches := w.dispatches[..k] + w.dispatches[k + 1..]);
    DroppingDispatch(w, k, base, arrived, replied);
    assert d.envelope in arrived && WellFormed(w1);
    hide Sourced, Touch, WellFormed;
    if w.installed.Some? {
      TouchSourced(w1, w.installed.value, Packet(d.envelope, now), cfg, base, arrived, replied);
    }
  }

  lemma {:induction false} DroppingDispatch(w: World, k: nat, base: map<int, Candle>, arrived: set<Envelope>, replied: set<Candle>)
    requires Sourced(w, base, arrived, replied) && k < |w.dispatches|
    ensures Sourced(w.(dispatches := w.dispatches[..k] + w.dispatches[k + 1..]), base, arrived, replied)
  {
    hide MachineSourced, WriteSourced, ProgressSourced, FromPackets;
  }

  lemma {:induction false} DroppingLookup(w: World, k: nat, base: map<int, Candle>, arrived: set<Envelope>, replied: set<Candle>)
    requires Sourced(w, base, arrived, replied) && k < |w.lookups|
    ensures Sourced(w.(lookups := w.lookups[..k] + w.lookups[k + 1..]), base, arrived, replied)
  {
    hide MachineSourced, WriteSourced, ProgressSourced, FromPackets;
  }

  lemma {:induction false} AnsweredLookupSourced(w: World, k: nat, answer: ReadAnswer, cfg: Config, base: map<int, Candle>,
                                                 arrived: set<Envelope>, replied: set<Candle>)
    requires WellFormed(w) && Sourced(w, base, arrived, replied) && k < |w.lookups|
    ensures Sourced(Take(w, HistoricalAnswered(k, answer), cfg), base, arrived, replied)
  {
    var r := w.lookups[k];
    var w1 := w.(lookups := w.lookups[..k] + w.lookups[k + 1..]);
    DroppingLookup(w, k, base, arrived, replied);
    assert WellFormed(w1) && r.machine < |w1.machines|;
    hide Sourced, Touch, WellFormed;
    TouchSourced(w1, r.machine, HistoricalRead(r.late, r.token, answer), cfg, base, arrived, replied);
  }

  lemma {:induction false} AnsweredCommitSourced(w: World, k: nat, cfg: Config, base: map<int, Candle>, arrived: set<Envelope>, replied: set<Candle>)
    requires WellFormed(w) && Sourced(w, base, arrived, replied) && k < |w.writes| && w.writes[k].stage.Answered?
    ensures Sourced(Take(w, CommitResumes(k), cfg), base, arrived, replied)
  {
    var w1 := WithWrite(w, k, w.writes[k].(stage := Consumed));
    SameSourcesKeep(w, w1, base, arrived, replied);
    assert WellFormed(w1) && w.writes[k].machine < |w1.machines|;
    hide Sourced, Touch, WellFormed;
    TouchSourced(w1, w.writes[k].machine, CommitAnswered(w.writes[k].stage.ok), cfg, base, arrived, replied);
  }

  // -------------------------------------------------------------------- runs

  /** The packet that a step lets arrive. */
  function NewPackets(s: Step): set<Envelope> {
    if s.EnvelopeArrives? && s.packet.Some? then {s.packet.value} else {}
  }

  function NewReplies(s: Step): set<Candle> {
    if s.RestReplies? then NewRecords(s.reply) else {}
  }

  lemma {:induction false} StageSourced(w: World, k: nat, x: Write, base: map<int, Candle>, arrived: set<Envelope>, replied: set<Candle>)
    requires Sourced(w, base, arrived, replied) && k < |w.writes|
    requires x.candidate == w.writes[k].candidate && x.candle == w.writes[k].candle
    ensures Sourced(WithWrite(w, k, x), base, arrived, replied)
  {
    hide Sourced;
    SameSourcesKeep(w, WithWrite(w, k, x), base, arrived, replied);
  }

  lemma {:induction false} CallbackSourced(w: World, k: nat, base: map<int, Candle>, arrived: set<Envelope>, replied: set<Candle>)
    requires WellFormed(w) && Sourced(w, base, arrived, replied) && k < |w.writes| && w.writes[k].outcome.Some?
    ensures Sourced(CallbackResumes(w, k), base, arrived, replied)
  {
    hide Sourced;
    SameSourcesKeep(w, CallbackResumes(w, k), base, arrived, replied);
  }

  lemma {:induction false} TurnSourced(w: World, k: nat, base: map<int, Candle>, arrived: set<Envelope>, replied: set<Candle>)
    requires Sourced(w, base, arrived, replied) && k < |w.writes| && w.writes[k].stage.Notifying?
    ensures Sourced(DispatchTurn(w, k), base, arrived, replied)
  {
    hide Sourced;
    SameSourcesKeep(w, DispatchTurn(w, k), base, arrived, replied);
  }

  lemma {:induction false} PlainStepSourced(w: World, s: Step, cfg: Config, base: map<int, Candle>, arrived: set<Envelope>, replied: set<Candle>)
    requires WellFormed(w) && CanTake(w, s) && Sourced(w, base, arrived, replied)
    requires s.PairInitialised? || s.BarrierPassed? || s.BaselineFetched? || s.EngineStarts? || s.Subscribed? || s.Unsubscribed?
    ensures Sourced(Take(w, s, cfg), base, arrived, replied)
  {
    hide LatestStored, LastFailed, Engine.Without;
    SameSourcesKeep(w, Take(w, s, cfg), base, arrived, replied);
  }

  lemma {:induction false} StepSourced(w: World, s: Step, cfg: Config, base: map<int, Candle>, arrived: set<Envelope>, replied: set<Candle>)
    requires WellFormed(w) && CanTake(w, s) && Sourced(w, base, arrived, replied)
    ensures Sourced(Take(w, s, cfg), base, arrived + NewPackets(s), replied + NewReplies(s))
  {
    var (a, r) := (arrived + NewPackets(s), replied + NewReplies(s));
    MoreSources(w, base, arrived, replied, a, r);
    hide Sourced, WellFormed, EnvelopeHandled, BeginAttempt, Install, ResumeDispatch, Touch, Land, CallbackResumes, DispatchTurn, RequestRecoveryNow,
      RestAnswered, ApplicationResumes, StopEngine, LatestStored, Engine.Without, NewRecords;
    match s
    case EnvelopeArrives(g, required, packet, stops, now) => EnvelopeSourced(w, g, required, packet, stops, now, cfg, base, a, r);
    case AttemptResumes(k, now) => InstallingSourced(w, k, now, cfg, base, a, r);
    case DispatchResumes(k, now) => ResumedDispatchSourced(w, k, now, cfg, base, a, r);
    case TimerFires(i, id, now) => TouchSourced(w, i, GraceTimer(id, now), cfg, base, a, r);
    case WriteLands(k) => LandingSourced(w, k, base, a, r);
    case CommitResumes(k) => AnsweredCommitSourced(w, k, cfg, base, a, r);
    case CommitFinishes(i, now) => TouchSourced(w, i, CommitCleanup(now), cfg, base, a, r);
    case RecoveryRequested(fromMs, toMs) => RequestedSourced(w, fromMs, toMs, cfg, base, a, r);
    case RestReplies(k, reply, now) => RepliedSourced(w, k, reply, now, cfg, base, a, r);
    case RecoveryContinues(k, answer, now) => ResumingSourced(w, k, answer, now, cfg, base, a, r);
    case HistoricalAnswered(k, answer) => AnsweredLookupSourced(w, k, answer, cfg, base, a, r);
    case EngineStops => StopSourced(w, cfg, base, a, r);
    case WriteStarts(k) => StageSourced(w, k, w.writes[k].(stage := Running(false)), base, a, r);
    case WriteSettles(k, outcome) => StageSourced(w, k, w.writes[k].(stage := Resolved, outcome := Some(outcome)), base, a, r);
    case WriteCallback(k) => CallbackSourced(w, k, base, a, r);
    case WriteDispatch(k) => TurnSourced(w, k, base, a, r);
    case _ => PlainStepSourced(w, s, cfg, base, a, r);
  }

  /** A run with the steps it takes. */
  ghost predicate Run(ws: seq<World>, ss: seq<Step>, pair: string, base: map<int, Candle>, cfg: Config) {
    && |ws| == |ss| + 1 && ws[0] == Start(pair, base)
    && forall i :: 0 <= i < |ss| ==> Steps(ws[i], ss[i], cfg, ws[i + 1])
  }

  function ArrivedIn(ss: seq<Step>): set<Envelope> {
    if ss == [] then {} else ArrivedIn(ss[..|ss| - 1]) + NewPackets(ss[|ss| - 1])
  }

  function RepliedIn(ss: seq<Step>): set<Candle> {
    if ss == [] then {} else RepliedIn(ss[..|ss| - 1]) + NewReplies(ss[|ss| - 1])
  }

  lemma {:induction false} RunSourced(ws: seq<World>, ss: seq<Step>, pair: string, base: map<int, Candle>, cfg: Config, j: nat)
    requires Run(ws, ss, pair, base, cfg) && j < |ws|
    ensures Sourced(ws[j], base, ArrivedIn(ss[..j]), RepliedIn(ss[..j]))
  {
    if j > 0 {
      RunSourced(ws, ss, pair, base, cfg, j - 1);
      hide Sourced, Take, CanTake, NewPackets, NewReplies;
      assert Steps(ws[j - 1], ss[j - 1], cfg, ws[j]);
      StepSourced(ws[j - 1], ss[j - 1], cfg, base, ArrivedIn(ss[..j - 1]), RepliedIn(ss[..j - 1]));
      assert ss[..j][..j - 1] == ss[..j - 1];
    }
  }

  lemma {:induction false} ArrivalStep(ss: seq<Step>, e: Envelope) returns (i: nat)
    requires e in ArrivedIn(ss)
    ensures i < |ss| && ss[i].EnvelopeArrives? && ss[i].packet == Some(e)
  {
    if e in NewPackets(ss[|ss| - 1]) {
      i := |ss| - 1;
    } else {
      i := ArrivalStep(ss[..|ss| - 1], e);
    }
  }

  lemma {:induction false} ReplyStep(ss: seq<Step>, c: Candle) returns (i: nat)
    requires c in RepliedIn(ss)
    ensures i < |ss| && ss[i].RestReplies? && ss[i].reply.Records? && c in ss[i].reply.records
  {
    if c in NewReplies(ss[|ss| - 1]) {
      i := |ss| - 1;
    } else {
      i := ReplyStep(ss[..|ss| - 1], c);
    }
  }

  /** A candle carries, field by field, the packet that step `i` let arrive. */
  predicate FromArrival(ss: seq<Step>, i: nat, c: Candle) {
    i < |ss| && ss[i].EnvelopeArrives? && ss[i].packet.Some? && CandleCarries(c, ss[i].packet.value)
  }

  predicate FromReply(ss: seq<Step>, i: nat, c: Candle) {
    i < |ss| && ss[i].RestReplies? && ss[i].reply.Records? && c in ss[i].reply.records
  }

  /** In every run, from any store: every row that the engine has added carries, field by field, a packet that arrived for its
      minute before, or is a record that REST replied before; and it is stored under its own minute. */
  lemma {:induction false} RowsComeFromTheWire(ws: seq<World>, ss: seq<Step>, pair: string, base: map<int, Candle>, cfg: Config, j: nat, t: int)
    returns (i: nat)
    requires Run(ws, ss, pair, base, cfg) && j < |ws| && t in ws[j].store && !(t in base && ws[j].store[t] == base[t])
    ensures ws[j].store[t].openTimeMs == t
    ensures i < j && (FromArrival(ss, i, ws[j].store[t]) || FromReply(ss, i, ws[j].store[t]))
  {
    hide CandleCarries, ArrivedIn, RepliedIn, MachineSourced;
    RunSourced(ws, ss, pair, base, cfg, j);
    assert RowSourced(ws[j].store, t, ArrivedIn(ss[..j]), RepliedIn(ss[..j]));
    var c := ws[j].store[t];
    if c in RepliedIn(ss[..j]) {
      i := ReplyStep(ss[..j], c);
    } else {
      var e :| e in ArrivedIn(ss[..j]) && CandleCarries(c, e);
      i := ArrivalStep(ss[..j], e);
    }
  }

  /** And so for every write ever handed to the persistence layer: a live one carries an arrived packet, a recovered one is a
      replied record. */
  lemma {:induction false} WritesComeFromTheWire(ws: seq<World>, ss: seq<Step>, pair: string, base: map<int, Candle>, cfg: Config, j: nat, k: nat)
    returns (i: nat)
    requires Run(ws, ss, pair, base, cfg) && j < |ws| && k < |ws[j].writes|
    ensures i < j
    ensures ws[j].writes[k].candidate.origin == LIVE_FINALIZATION ==> FromArrival(ss, i, ws[j].writes[k].candle)
    ensures ws[j].writes[k].candidate.origin == REST_RECOVERY ==> FromReply(ss, i, ws[j].writes[k].candle)
  {
    hide CandleCarries, ArrivedIn, RepliedIn, MachineSourced;
    RunSourced(ws, ss, pair, base, cfg, j);
    var x := ws[j].writes[k];
    assert WriteSourced(x.candidate, x.candle, ArrivedIn(ss[..j]), RepliedIn(ss[..j]));
    if x.candidate.origin == REST_RECOVERY {
      i := ReplyStep(ss[..j], x.candle);
    } else {
      var e :| e in ArrivedIn(ss[..j]) && CandleCarries(x.candle, e);
      i := ArrivalStep(ss[..j], e);
    }
  }
}
