/** Without a stored baseline the store may end up with a hole. The run below shows how:
    a first commit is still being written when a gap drops its successor, a reconnect
    invalidates the commit, its row lands all the same, and the recovery then starts at
    the forming minute. */
module ColdStart {
  import opened Common
  import opened WorkingCandle
  import opened PairState
  import opened Engine
  import opened EngineInvariants
  import opened EngineTheorems
  import opened Scenario
  import PairStateTheorems

  // ------------------------------------------------- the machine, reaction by reaction

  /** A gap drops the second minute, which is still in its grace period. */
  lemma {:induction false} GapOpens(m: Machine) returns (m': Machine)
    requires Forms(m.(flight := None), 12, None) && m.flight == Some(Persisting(FIRST, CandleOf(10)))
    ensures HandleEnvelope(m, PacketOf(14), Now(14), DEFAULTS) == (m', RequestRecovery(Minute(12), Minute(13), 2))
    ensures m'.flight == m.flight && m'.latest == None && m'.truthFault == NONE && !m'.stopped
    ensures m'.pendingFinalizations == map[] && m'.readyToCommit == map[]
    ensures CurrentOpenTime(m'.working, PAIR) == Some(Minute(12))
    ensures m'.reconnectRecoveryFromMs == None && m'.recoveryEpoch == 2 && m'.canonicalEpoch == 1 && m'.generationId == Some(1)
    ensures m'.pair == PAIR
  {
    var m1 := EnterRecovery(m);
    assert EvidenceAt(m1.working, Key(PAIR, Minute(14))) == Evidence(map[], None);
    assert EnterRecovery(m).recoveryEpoch == 2;
    m' := OpenGap(m, PacketOf(14), Minute(12), DEFAULTS).0;
    GapHandled(m);
    hide HandleEnvelope, LatchEvidence, Updated;
  }

  lemma {:induction false} GapHandled(m: Machine)
    requires Forms(m.(flight := None), 12, None)
    ensures HandleEnvelope(m, PacketOf(14), Now(14), DEFAULTS) == OpenGap(m, PacketOf(14), Minute(12), DEFAULTS)
  {
    hide ApplyWorking, ScheduleFinalization, OpenGap, AcceptRecovering, HoldsEvidenceUpTo;
    assert m.(generationId := Some(1)) == m;
  }

  /** The reconnect invalidates the commit, and owes a recovery from the forming minute only. */
  lemma {:induction false} BarrierFalls(m: Machine) returns (m': Machine)
    requires m.flight == Some(Persisting(FIRST, CandleOf(10))) && m.latest == None && m.truthFault == NONE && !m.stopped
    requires m.pendingFinalizations == map[] && m.readyToCommit == map[]
    requires CurrentOpenTime(m.working, PAIR) == Some(Minute(12)) && m.pair == PAIR
    requires m.reconnectRecoveryFromMs == None && m.recoveryEpoch == 2 && m.canonicalEpoch == 1 && m.generationId == Some(1)
    ensures m' == ReconnectBarrier(m, 2)
    ensures m'.reconnectRecoveryFromMs == Some(Minute(12)) && m'.flight == m.flight && Recovering(m')
  {
    assert Unresolved(m) == {Minute(12)};
    m' := ReconnectBarrier(m, 2);
  }

  predicate Recovering(m: Machine) {
    && m.latest == None && m.truthFault == NONE && !m.stopped && m.readyToCommit == map[] && m.pair == PAIR
    && m.recoveryEpoch == 3 && m.canonicalEpoch == 2 && m.generationId == Some(2)
  }

  lemma {:induction false} CommitIsStale(m: Machine, now: int) returns (m': Machine)
    requires m.flight == Some(Persisting(FIRST, CandleOf(10))) && Recovering(m)
    ensures m' == CommitFinally(CommitSettled(m, true), now) && m'.flight == None && Recovering(m')
  {
    m' := CommitFinally(CommitSettled(m, true), now);
  }

  const RECOVERY: Application := Application(Token(2, 3, Some(2)), Enqueuing([CandleOf(12), CandleOf(13)], {}))

  lemma {:induction false} RecoveryCommits(m: Machine, answer: ReadAnswer, now: int)
    requires m.flight == None && Recovering(m)
    ensures var r := React(m, ApplicationResumed(RECOVERY, answer, now), DEFAULTS);
            && r.machine.flight.Some? && r.machine.flight.value.Persisting? && r.machine.flight.value.candle == CandleOf(12)
            && r.effect == NoEffect && r.next.Continue?
  {
    var c := Candidate(Minute(12), REST_RECOVERY, RECOVERY.token, Some(CandleOf(12)));
    var m1 := m.(waiters := m.waiters[m.nextWaiter := Minute(12)], nextWaiter := m.nextWaiter + 1);
    var queued := m1.(readyToCommit := m1.readyToCommit[Minute(12) := c]);
    assert queued.readyToCommit.Keys == {Minute(12)};
    assert Enqueue(m1, c, now) == StartCommit(queued.(readyToCommit := queued.readyToCommit - {Minute(12)}), c, now);
  }

  // --------------------------------------------------- the engine, step by step

  lemma {:induction false} Reaches(w: World, s: Step) returns (w': World)
    requires Reachable(w, PAIR, map[], DEFAULTS) && WellFormed(w) && CanTake(w, s)
    ensures w' == Take(w, s, DEFAULTS) && Reachable(w', PAIR, map[], DEFAULTS)
  {
    var ws :| Behaviour(ws, PAIR, map[], DEFAULTS) && ws[|ws| - 1] == w;
    w' := Take(w, s, DEFAULTS);
    assert Steps(w, s, DEFAULTS, w');
    var extended := ws + [w'];
    hide Take, CanTake, Steps;
    forall i | 0 <= i < |extended| - 1 ensures Leads(extended[i], extended[i + 1], DEFAULTS) {
      if i < |ws| - 1 {
        assert Leads(ws[i], ws[i + 1], DEFAULTS);
      } else {
        assert extended[i] == w && extended[i + 1] == w';
      }
    }
    assert Behaviour(extended, PAIR, map[], DEFAULTS);
  }

  /** The engine is in its first run and `m` is in service. */
  ghost predicate Serves(w: World, m: Machine) {
    && WellFormed(w) && w.pair == PAIR && w.runId == 1 && !w.isStopped
    && w.machines == [Instance(1, m)] && w.installed == Some(0)
  }

  ghost predicate Tuned(w: World) {
    (w.streamGeneration == None || w.streamGeneration == Some(1)) && w.reconnectGeneration == None
  }

  lemma {:induction false} StartIsReachable() returns (w: World)
    ensures w == Start(PAIR, map[]) && Reachable(w, PAIR, map[], DEFAULTS)
  {
    hide Take, CanTake;
    w := Start(PAIR, map[]);
    assert Behaviour([w], PAIR, map[], DEFAULTS);
  }

  lemma {:induction false} Initialises() returns (w: World)
    ensures Reachable(w, PAIR, map[], DEFAULTS) && Serves(w, NewMachine(PAIR, None)) && Tuned(w)
    ensures w.writes == [] && w.store == map[]
  {
    hide Reachable, Greatest;
    var w0 := StartIsReachable();
    var w1 := Reaches(w0, PairInitialised);
    assert w1.attempts == [Attempt(1, 0, None, 1, AwaitingBarrier(0))];
    var w2 := Reaches(w1, BarrierPassed(0));
    assert w2.attempts == [Attempt(1, 0, None, 1, Reading(false))];
    var w3 := Reaches(w2, BaselineFetched(0, true));
    assert w3.attempts == [Attempt(1, 0, None, 1, BaselineRead(false, None))];
    w := Reaches(w3, AttemptResumes(0, 0));
    assert w == Installed(w3, 0);
  }

  lemma {:induction false} PacketArrives(w: World, m: Machine, k: nat) returns (w': World)
    requires Reachable(w, PAIR, map[], DEFAULTS) && Serves(w, m) && Tuned(w)
    requires !PairStateTheorems.StartsWrite(m, HandleEnvelope(m, PacketOf(k), Now(k), DEFAULTS).0)
    ensures Reachable(w', PAIR, map[], DEFAULTS) && Serves(w', HandleEnvelope(m, PacketOf(k), Now(k), DEFAULTS).0) && Tuned(w')
    ensures w'.writes == w.writes && w'.store == w.store
  {
    hide Reachable, HandleEnvelope;
    w' := Reaches(w, EnvelopeArrives(1, false, Some(PacketOf(k)), false, Now(k)));
    assert w' == DispatchPacket(Retuned(w, 1, false), PacketOf(k), Now(k), DEFAULTS);
  }

  lemma {:induction false} GapArrives(w: World, m: Machine, m': Machine) returns (w': World)
    requires Reachable(w, PAIR, map[], DEFAULTS) && Serves(w, m) && Tuned(w)
    requires HandleEnvelope(m, PacketOf(14), Now(14), DEFAULTS) == (m', RequestRecovery(Minute(12), Minute(13), 2))
    requires !PairStateTheorems.StartsWrite(m, m')
    ensures Reachable(w', PAIR, map[], DEFAULTS) && Serves(w', m') && Tuned(w')
    ensures w'.writes == w.writes && w'.store == w.store
  {
    w' := PacketArrives(w, m, 14);
  }

  /** The commit of the first minute is handed to the persistence layer. */
  lemma {:induction false} TimerStep(w: World, m: Machine, m': Machine) returns (w': World)
    requires Reachable(w, PAIR, map[], DEFAULTS) && Serves(w, m) && Tuned(w) && w.writes == []
    requires m.flight == None && m' == GraceElapsed(m, 0, Now(12)) && m'.flight == Some(Persisting(FIRST, CandleOf(10)))
    ensures Reachable(w', PAIR, map[], DEFAULTS) && Serves(w', m') && Tuned(w')
    ensures w'.writes == [Write(0, FIRST, CandleOf(10), None, Queued)] && w'.store == w.store
  {
    hide Reachable, GraceElapsed;
    w' := Reaches(w, TimerFires(0, 0, Now(12)));
  }

  lemma {:induction false} LatestClosed()
    ensures Now(14) / MINUTE_MS * MINUTE_MS - MINUTE_MS == Minute(13)
  {
  }

  /** A reconnect: barrier, and recovery of the range it owes. */
  lemma {:induction false} ReconnectStep(w: World, m: Machine, m': Machine) returns (w': World)
    requires Reachable(w, PAIR, map[], DEFAULTS) && Serves(w, m) && Tuned(w)
    requires m' == ReconnectBarrier(m, 2) && Recovering(m') && m'.flight == m.flight && m'.reconnectRecoveryFromMs == Some(Minute(12))
    ensures Reachable(w', PAIR, map[], DEFAULTS) && Serves(w', m') && w'.writes == w.writes && w'.store == w.store
    ensures |w'.recoveries| == |w.recoveries| + 1
    ensures w'.recoveries[|w.recoveries|] == Recovery(0, 1, 3, Minute(12), Minute(13), Fetching)
  {
    LatestClosed();
    hide Reachable, ReconnectBarrier;
    w' := Reaches(w, EnvelopeArrives(2, true, None, false, Now(14)));
    var tuned := Retuned(w, 2, true);
    var touched := Touch(tuned, 0, Reconnected(2), DEFAULTS);
    assert touched == tuned.(machines := [Instance(1, m')]);
    assert w' == Reconciled(touched, 0, Now(14), DEFAULTS);
  }

  /** The stale commit lands, and nobody is told. */
  lemma {:induction false} StaleWriteLands(w: World, m: Machine) returns (w': World, m': Machine)
    requires Reachable(w, PAIR, map[], DEFAULTS) && Serves(w, m) && Recovering(m) && w.store == map[]
    requires w.writes == [Write(0, FIRST, CandleOf(10), None, Queued)] && m.flight == Some(Persisting(FIRST, CandleOf(10)))
    ensures Reachable(w', PAIR, map[], DEFAULTS) && Serves(w', m') && Recovering(m') && m'.flight == None
    ensures w'.store == map[Minute(10) := CandleOf(10)] && w'.recoveries == w.recoveries
    ensures |w'.writes| == 1 && w'.writes[0].outcome.Some?
  {
    hide Reachable, CommitSettled, CommitFinally;
    var w1 := Reaches(w, WriteStarts(0));
    var w2 := Reaches(w1, WriteLands(0));
    var w3 := Reaches(w2, WriteSettles(0, INSERTED));
    var w4 := Reaches(w3, WriteCallback(0));
    assert w4.writes == [Write(0, FIRST, CandleOf(10), Some(INSERTED), Answered(true))];
    w', m' := StaleCommitEnds(w4, m);
  }

  lemma {:induction false} StaleCommitEnds(w: World, m: Machine) returns (w': World, m': Machine)
    requires Reachable(w, PAIR, map[], DEFAULTS) && Serves(w, m) && Recovering(m)
    requires w.writes == [Write(0, FIRST, CandleOf(10), Some(INSERTED), Answered(true))]
    requires m.flight == Some(Persisting(FIRST, CandleOf(10)))
    ensures Reachable(w', PAIR, map[], DEFAULTS) && Serves(w', m') && Recovering(m') && m'.flight == None
    ensures w'.store == w.store && w'.recoveries == w.recoveries && |w'.writes| == 1 && w'.writes[0].outcome.Some?
  {
    m' := CommitIsStale(m, 0);
    var answered := CommitSettled(m, true);
    assert !PairStateTheorems.Writing(answered) && !PairStateTheorems.Writing(m');
    hide Reachable, Serves, CommitSettled, CommitFinally, Recovering;
    var w1 := CommitAnswers(w, m, answered);
    w' := CommitEnds(w1, answered, m');
  }

  lemma {:induction false} CommitAnswers(w: World, m: Machine, answered: Machine) returns (w': World)
    requires Reachable(w, PAIR, map[], DEFAULTS) && Serves(w, m) && |w.writes| == 1 && w.writes[0].stage == Answered(true)
    requires answered == CommitSettled(m, true) && !PairStateTheorems.Writing(answered)
    ensures Reachable(w', PAIR, map[], DEFAULTS) && Serves(w', answered)
    ensures w'.store == w.store && w'.recoveries == w.recoveries && |w'.writes| == 1
    ensures w'.writes[0].outcome == w.writes[0].outcome
  {
    hide Reachable, CommitSettled;
    w' := Reaches(w, CommitResumes(0));
    Reacts(WithWrite(w, 0, w.writes[0].(stage := Consumed)), m, CommitAnswered(true), answered);
  }

  lemma {:induction false} CommitEnds(w: World, m: Machine, m': Machine) returns (w': World)
    requires Reachable(w, PAIR, map[], DEFAULTS) && Serves(w, m) && |w.writes| == 1
    requires m' == CommitFinally(m, 0) && !PairStateTheorems.Writing(m')
    ensures Reachable(w', PAIR, map[], DEFAULTS) && Serves(w', m')
    ensures w'.store == w.store && w'.recoveries == w.recoveries && w'.writes == w.writes
  {
    hide Reachable, CommitFinally;
    w' := Reaches(w, CommitFinishes(0, 0));
    Reacts(w, m, CommitCleanup(0), m');
  }

  /** The machine in service reacts without starting a write. */
  lemma {:induction false} Reacts(w: World, m: Machine, s: Stimulus, m': Machine)
    requires Serves(w, m) && React(m, s, DEFAULTS) == Reaction(m', NoEffect, Finished) && !PairStateTheorems.StartsWrite(m, m')
    ensures Serves(Touch(w, 0, s, DEFAULTS), m') && Touch(w, 0, s, DEFAULTS) == w.(machines := [Instance(1, m')])
  {
    hide React;
  }

  const REPLY: RestReply := Records([CandleOf(12), CandleOf(13)])

  lemma {:induction false} ReplyIsComplete()
    ensures Batch(CoverageMap(REPLY.records), Minute(12), Minute(13), Now(14)) == Some(REPLY.records)
  {
    var coverage := CoverageMap(REPLY.records);
    assert REPLY.records[..1] == [CandleOf(12)];
    assert CoverageMap([CandleOf(12)]) == map[Minute(12) := CandleOf(12)];
    assert coverage == map[Minute(12) := CandleOf(12), Minute(13) := CandleOf(13)];
    assert Minute(12) + MINUTE_MS == Minute(13) && Minute(13) + MINUTE_MS == Minute(14);
    assert Batch(coverage, Minute(14), Minute(13), Now(14)) == Some([]);
    assert [CandleOf(13)] + [] == [CandleOf(13)];
    assert Batch(coverage, Minute(13), Minute(13), Now(14)) == Some([CandleOf(13)]);
    assert [CandleOf(12)] + [CandleOf(13)] == [CandleOf(12), CandleOf(13)];
  }

  /** The recovery's first candle is written next, leaving the dropped minute out. */
  lemma {:induction false} RecoveryStep(w: World, m: Machine, k: nat) returns (w': World)
    requires Reachable(w, PAIR, map[], DEFAULTS) && Serves(w, m) && Recovering(m) && m.flight == None
    requires k < |w.recoveries| && w.recoveries[k] == Recovery(0, 1, 3, Minute(12), Minute(13), Fetching)
    ensures Reachable(w', PAIR, map[], DEFAULTS) && WellFormed(w') && w'.store == w.store && w'.pair == PAIR
    ensures |w'.writes| == |w.writes| + 1 && w'.writes[..|w.writes|] == w.writes
    ensures w'.writes[|w.writes|].stage == Queued && w'.writes[|w.writes|].candle == CandleOf(12)
  {
    RecoveryCommits(m, ReadFailed, Now(14));
    assert BeginApplication(m, REPLY.records, 3) == Continue(RECOVERY);
    assert RECOVERY.phase.Enqueuing?;
    hide Reachable, React, Recovering;
    var w1 := ReplyStep(w, m, k, RECOVERY);
    w' := RecoveryCommitsStep(w1, m, k, RECOVERY);
  }

  lemma {:induction false} ReplyStep(w: World, m: Machine, k: nat, a: Application) returns (w': World)
    requires Reachable(w, PAIR, map[], DEFAULTS) && Serves(w, m) && m.recoveryEpoch == 3
    requires k < |w.recoveries| && w.recoveries[k] == Recovery(0, 1, 3, Minute(12), Minute(13), Fetching)
    requires BeginApplication(m, REPLY.records, 3) == Continue(a)
    ensures Reachable(w', PAIR, map[], DEFAULTS) && Serves(w', m) && w'.store == w.store && w'.writes == w.writes
    ensures |w'.recoveries| == |w.recoveries| && w'.recoveries[k].machine == 0 && w'.recoveries[k].progress == Applying(a)
  {
    ReplyIsComplete();
    hide Reachable, Batch, CoverageMap, BeginApplication;
    w' := Reaches(w, RestReplies(k, REPLY, Now(14)));
    assert w' == WithProgress(w, k, Applying(a));
  }

  lemma {:induction false} RecoveryCommitsStep(w: World, m: Machine, k: nat, a: Application) returns (w': World)
    requires Reachable(w, PAIR, map[], DEFAULTS) && Serves(w, m) && a.phase.Enqueuing?
    requires k < |w.recoveries| && w.recoveries[k].machine == 0 && w.recoveries[k].progress == Applying(a)
    requires var r := React(m, ApplicationResumed(a, ReadFailed, Now(14)), DEFAULTS);
             && PairStateTheorems.StartsWrite(m, r.machine) && r.machine.flight.value.candle == CandleOf(12)
             && r.effect == NoEffect && r.next.Continue?
    ensures Reachable(w', PAIR, map[], DEFAULTS) && WellFormed(w') && w'.store == w.store && w'.pair == PAIR
    ensures |w'.writes| == |w.writes| + 1 && w'.writes[..|w.writes|] == w.writes
    ensures w'.writes[|w.writes|].stage == Queued && w'.writes[|w.writes|].candle == CandleOf(12)
  {
    hide Reachable, React, ApplicationResumes;
    Applies(w, m, k, a);
    hide Serves, CanTake;
    w' := Reaches(w, RecoveryContinues(k, ReadFailed, Now(14)));
  }

  lemma {:induction false} Applies(w: World, m: Machine, k: nat, a: Application)
    requires Serves(w, m) && a.phase.Enqueuing?
    requires k < |w.recoveries| && w.recoveries[k].machine == 0 && w.recoveries[k].progress == Applying(a)
    requires var r := React(m, ApplicationResumed(a, ReadFailed, Now(14)), DEFAULTS);
             && PairStateTheorems.StartsWrite(m, r.machine) && r.machine.flight.value.candle == CandleOf(12)
             && r.effect == NoEffect && r.next.Continue?
    ensures CanTake(w, RecoveryContinues(k, ReadFailed, Now(14))) && WellFormed(w)
    ensures var w' := ApplicationResumes(w, k, ReadFailed, Now(14), DEFAULTS);
            && WellFormed(w') && w'.store == w.store && w'.pair == PAIR
            && |w'.writes| == |w.writes| + 1 && w'.writes[..|w.writes|] == w.writes
            && w'.writes[|w.writes|].stage == Queued && w'.writes[|w.writes|].candle == CandleOf(12)
  {
    var s := ApplicationResumed(a, ReadFailed, Now(14));
    hide React;
    Enqueues(w, m, s);
    AppliesOnce(w, k, s);
    hide Touch, ApplicationResumes;
  }

  lemma {:induction false} AppliesOnce(w: World, k: nat, s: Stimulus)
    requires WellFormed(w) && k < |w.recoveries| && w.recoveries[k].machine < |w.machines| && w.recoveries[k].progress.Applying?
    requires s == ApplicationResumed(w.recoveries[k].progress.application, ReadFailed, Now(14))
    requires React(w.machines[w.recoveries[k].machine].machine, s, DEFAULTS).next.Continue?
    ensures var w1 := Touch(w, w.recoveries[k].machine, s, DEFAULTS);
            var w2 := ApplicationResumes(w, k, ReadFailed, Now(14), DEFAULTS);
            w2.writes == w1.writes && w2.store == w1.store && w2.pair == w1.pair && WellFormed(w2)
  {
    hide React, Touch, GiveUp;
  }

  /** The machine in service starts a write. */
  lemma {:induction false} Enqueues(w: World, m: Machine, s: Stimulus)
    requires Serves(w, m) && PairStateTheorems.StartsWrite(m, React(m, s, DEFAULTS).machine) && React(m, s, DEFAULTS).effect == NoEffect
    ensures var f := React(m, s, DEFAULTS).machine.flight.value;
            Touch(w, 0, s, DEFAULTS) == w.(machines := [Instance(1, React(m, s, DEFAULTS).machine)],
                                           writes := w.writes + [Write(0, f.candidate, f.candle, None, Queued)])
  {
    hide React;
  }

  lemma {:induction false} SecondRowLands(w: World) returns (w': World)
    requires Reachable(w, PAIR, map[], DEFAULTS) && WellFormed(w) && |w.writes| == 2 && w.writes[0].outcome.Some?
    requires w.writes[1].stage == Queued && w.writes[1].candle == CandleOf(12) && w.store == map[Minute(10) := CandleOf(10)]
    ensures Reachable(w', PAIR, map[], DEFAULTS)
    ensures w'.store == map[Minute(10) := CandleOf(10), Minute(12) := CandleOf(12)]
  {
    hide Reachable;
    var w1 := Reaches(w, WriteStarts(1));
    w' := Reaches(w1, WriteLands(1));
  }

  /** The run as a whole. */
  lemma {:induction false} HoleAppears() returns (w: World)
    ensures Reachable(w, PAIR, map[], DEFAULTS)
    ensures w.store == map[Minute(10) := CandleOf(10), Minute(12) := CandleOf(12)]
  {
    hide Reachable, Serves, Tuned, Forms, Recovering;
    var w3, m12 := ThreePackets();
    var w6, m, k := CommitGapReconnect(w3, m12);
    w := RestOfTheRun(w6, m, k);
  }

  lemma {:induction false} ThreePackets() returns (w: World, m: Machine)
    ensures Reachable(w, PAIR, map[], DEFAULTS) && Serves(w, m) && Tuned(w) && w.writes == [] && w.store == map[]
    ensures Forms(m, 12, None) && 0 in m.timers && m.timers[0] == Timer(Minute(10), ISSUED) && Minute(10) in m.pendingFinalizations
    ensures Key(PAIR, Minute(10)) in m.working.working
    ensures m.working.working[Key(PAIR, Minute(10))] == SnapshotOf(PacketOf(10))
  {
    var w0 := Initialises();
    var m10 := FirstPacket(None);
    hide Reachable, HandleEnvelope, Serves, Tuned, Idle, HoldsEvidenceUpTo, SnapshotOf;
    var w1 := PacketArrives(w0, NewMachine(PAIR, None), 10);
    var m11 := NextPacket(m10, 10, None);
    var w2 := PacketArrives(w1, m10, 11);
    m := NextPacket(m11, 11, None);
    w := PacketArrives(w2, m11, 12);
  }

  lemma {:induction false} CommitGapReconnect(w: World, m: Machine) returns (w': World, m': Machine, k: nat)
    requires Reachable(w, PAIR, map[], DEFAULTS) && Serves(w, m) && Tuned(w) && w.writes == [] && w.store == map[]
    requires Forms(m, 12, None) && 0 in m.timers && m.timers[0] == Timer(Minute(10), ISSUED) && Minute(10) in m.pendingFinalizations
    requires Key(PAIR, Minute(10)) in m.working.working
    requires m.working.working[Key(PAIR, Minute(10))] == SnapshotOf(PacketOf(10))
    ensures Reachable(w', PAIR, map[], DEFAULTS) && Serves(w', m') && Recovering(m') && w'.store == map[]
    ensures w'.writes == [Write(0, FIRST, CandleOf(10), None, Queued)] && m'.flight == Some(Persisting(FIRST, CandleOf(10)))
    ensures k < |w'.recoveries| && w'.recoveries[k] == Recovery(0, 1, 3, Minute(12), Minute(13), Fetching)
  {
    var committing := CommitStarts(m, 12, None);
    var gapped := GapOpens(committing);
    m' := BarrierFalls(gapped);
    hide Reachable, HandleEnvelope, GraceElapsed, ReconnectBarrier, Serves, Tuned, HoldsEvidenceUpTo, SnapshotOf;
    var w1 := TimerStep(w, m, committing);
    var w2 := GapArrives(w1, committing, gapped);
    k := |w2.recoveries|;
    w' := ReconnectStep(w2, gapped, m');
  }

  lemma {:induction false} RestOfTheRun(w: World, m: Machine, k: nat) returns (w': World)
    requires Reachable(w, PAIR, map[], DEFAULTS) && Serves(w, m) && Recovering(m) && w.store == map[]
    requires w.writes == [Write(0, FIRST, CandleOf(10), None, Queued)] && m.flight == Some(Persisting(FIRST, CandleOf(10)))
    requires k < |w.recoveries| && w.recoveries[k] == Recovery(0, 1, 3, Minute(12), Minute(13), Fetching)
    ensures Reachable(w', PAIR, map[], DEFAULTS)
    ensures w'.store == map[Minute(10) := CandleOf(10), Minute(12) := CandleOf(12)]
  {
    hide Reachable, Serves, Recovering, WellFormed;
    var w1, m1 := StaleWriteLands(w, m);
    var w2 := RecoveryStep(w1, m1, k);
    w' := SecondRowLands(w2);
  }

  /** The store stays free of holes in every run from every store but the empty one. */
  lemma {:induction false} HoleFreeExactlyAboveABaseline(base: map<int, Candle>)
    ensures base.Keys != {} <==>
              forall w, pair, cfg :: Reachable(w, pair, base, cfg) ==> HoleFree(w.store, base)
  {
    if base.Keys != {} {
      forall w, pair, cfg | Reachable(w, pair, base, cfg) ensures HoleFree(w.store, base) {
        StoreExtendsBaseline(w, pair, base, cfg);
      }
    } else {
      assert base == map[];
      var w := HoleAppears();
      assert Minute(12) in w.store && Minute(10) in w.store;
      assert Minute(12) - MINUTE_MS == Minute(11) && !Follows(w.store, Minute(12));
      assert !IsLeast(w.store.Keys, Minute(12));
      assert !HoleFree(w.store, base);
    }
  }
}
