/** A pair whose minutes arrive one packet after another: the vocabulary of the
    concrete runs, and what the machine is like after each of their first packets. */
module Scenario {
  import opened Common
  import opened WorkingCandle
  import opened PairState

  const PAIR: string := "B-BTC_USDT"
  const DEFAULTS: Config := Config(1000, 5000, 100, 120_000)
  const VALUES: Values := Values(1.0, 1.0, 1.0, 1.0, 1.0, None)
  const ISSUED: Token := Token(1, 1, Some(1))

  function Minute(k: nat): int {
    MIN_CANONICAL_OPEN_TIME_MS + k * MINUTE_MS
  }

  function PacketOf(k: nat): Envelope {
    Envelope(PAIR, Minute(k), Minute(k) + 59_999, true, Minute(k) + 1000, VALUES, 1, Minute(k) + 1000, 1)
  }

  function Now(k: nat): int {
    Minute(k) + 2000
  }

  function CandleOf(k: nat): Candle {
    Candle(PAIR, Minute(k), VALUES)
  }

  /** A healthy machine of the first generation that has committed nothing above its baseline and forms minute `k`. */
  ghost predicate Forms(m: Machine, k: nat, baseline: Option<int>) {
    && Idle(m, baseline) && m.flight == None && m.generationId == Some(1)
    && CurrentOpenTime(m.working, PAIR) == Some(Minute(k))
    && HoldsEvidenceUpTo(m.working, k)
    && (forall t <- m.pendingFinalizations :: t < Minute(k))
    && (forall id <- m.timers :: id < m.nextTimer)
  }

  predicate Idle(m: Machine, baseline: Option<int>) {
    && m.pair == PAIR && m.latest == baseline && m.truthFault == NONE && !m.stopped && !m.recoveryActive && m.readyToCommit == map[]
    && m.canonicalEpoch == 1 && m.recoveryEpoch == 1 && m.reconnectRecoveryFromMs == None && m.recoveryBuffer == []
  }

  predicate Below(baseline: Option<int>, k: nat) {
    baseline.Some? ==> baseline.value < Minute(k)
  }

  ghost predicate HoldsEvidenceUpTo(w: Manager, k: nat) {
    && (forall key <- w.evidence :: key.openTimeMs <= Minute(k))
    && (forall key <- w.working :: key.openTimeMs <= Minute(k))
  }

  lemma {:induction false} FirstPacket(baseline: Option<int>) returns (m: Machine)
    requires baseline.Some? ==> baseline.value == Minute(9)
    ensures HandleEnvelope(NewMachine(PAIR, baseline), PacketOf(10), Now(10), DEFAULTS) == (m, NoEffect)
    ensures Forms(m, 10, baseline) && Key(PAIR, Minute(10)) in m.working.working
    ensures m.working.working[Key(PAIR, Minute(10))] == SnapshotOf(PacketOf(10)) && m.nextTimer == 0
  {
    m := HandleEnvelope(NewMachine(PAIR, baseline), PacketOf(10), Now(10), DEFAULTS).0;
  }

  lemma {:induction false} FormsNext(w: Manager, k: nat)
    requires HoldsEvidenceUpTo(w, k) && CurrentOpenTime(w, PAIR) == Some(Minute(k))
    ensures var (w', result) := Updated(w, SnapshotOf(PacketOf(k + 1)));
            && result == ACCEPTED && HoldsEvidenceUpTo(w', k + 1) && CurrentOpenTime(w', PAIR) == Some(Minute(k + 1))
            && (forall key <- w.working :: key in w'.working && w'.working[key] == w.working[key])
  {
  }

  /** The packet of the next minute puts minute `k` into its grace period. */
  lemma {:induction false} NextPacket(m: Machine, k: nat, baseline: Option<int>) returns (m': Machine)
    requires Forms(m, k, baseline) && Below(baseline, k) && SafeInteger(Minute(k + 1) + MINUTE_MS)
    ensures HandleEnvelope(m, PacketOf(k + 1), Now(k + 1), DEFAULTS) == (m', NoEffect)
    ensures Forms(m', k + 1, baseline) && m'.nextTimer == m.nextTimer + 1
    ensures m.nextTimer in m'.timers && m'.timers[m.nextTimer] == Timer(Minute(k), ISSUED)
    ensures forall id <- m.timers :: id in m'.timers && m'.timers[id] == m.timers[id]
    ensures m'.pendingFinalizations.Keys == m.pendingFinalizations.Keys + {Minute(k)}
    ensures forall key <- m.working.working :: key in m'.working.working && m'.working.working[key] == m.working.working[key]
  {
    var e, m1 := PacketOf(k + 1), InGrace(m, k, m.working);
    var w := Updated(m.working, SnapshotOf(e)).0;
    FormsNext(m.working, k);
    NextPacketHandled(m, k, baseline);
    GraceBegins(m, k, baseline);
    assert m1.working == m.working && InGrace(m, k, w) == m1.(working := w);
    GraceForms(m, k, baseline, w);
    m' := InGrace(m, k, w);
    hide Updated, HoldsEvidenceUpTo, HandleEnvelope, ScheduleFinalization, ApplyWorking, SnapshotOf, PacketOf, Forms, InGrace;
    AcceptedUpdate(m1, e);
  }

  lemma {:induction false} GraceForms(m: Machine, k: nat, baseline: Option<int>, w: Manager)
    requires Forms(m, k, baseline) && HoldsEvidenceUpTo(w, k + 1) && CurrentOpenTime(w, PAIR) == Some(Minute(k + 1))
    ensures var m' := InGrace(m, k, w);
            && Forms(m', k + 1, baseline) && m'.nextTimer == m.nextTimer + 1 && m'.working == w
            && m.nextTimer in m'.timers && m'.timers[m.nextTimer] == Timer(Minute(k), ISSUED)
            && (forall id <- m.timers :: id in m'.timers && m'.timers[id] == m.timers[id])
            && m'.pendingFinalizations.Keys == m.pendingFinalizations.Keys + {Minute(k)}
  {
    hide HoldsEvidenceUpTo;
  }

  /** Minute `k` is in its grace period and the working candles are `w`. */
  function InGrace(m: Machine, k: nat, w: Manager): Machine {
    m.(timers := m.timers[m.nextTimer := Timer(Minute(k), ISSUED)],
       pendingFinalizations := m.pendingFinalizations[Minute(k) := Pending(m.nextTimer, Minute(k + 1) + 1000)],
       nextTimer := m.nextTimer + 1, working := w)
  }

  lemma {:induction false} AcceptedUpdate(m: Machine, e: Envelope)
    requires Updated(m.working, SnapshotOf(e)).1 == ACCEPTED
    ensures ApplyWorking(m, e) == m.(working := Updated(m.working, SnapshotOf(e)).0)
  {
    hide Updated;
  }

  lemma {:induction false} GraceBegins(m: Machine, k: nat, baseline: Option<int>)
    requires Forms(m, k, baseline)
    ensures ScheduleFinalization(m, Minute(k), Minute(k + 1) + 1000) == InGrace(m, k, m.working)
  {
  }

  lemma {:induction false} NextPacketHandled(m: Machine, k: nat, baseline: Option<int>)
    requires Forms(m, k, baseline) && Below(baseline, k) && SafeInteger(Minute(k + 1) + MINUTE_MS)
    ensures HandleEnvelope(m, PacketOf(k + 1), Now(k + 1), DEFAULTS) ==
            (ApplyWorking(ScheduleFinalization(m, Minute(k), Minute(k + 1) + 1000), PacketOf(k + 1)), NoEffect)
  {
    hide ApplyWorking, ScheduleFinalization, OpenGap, AcceptRecovering;
  }

  const FIRST: Candidate := Candidate(Minute(10), LIVE_FINALIZATION, ISSUED, None)

  /** The first minute's grace elapses and its commit starts. */
  lemma {:induction false} CommitStarts(m: Machine, k: nat, baseline: Option<int>) returns (m': Machine)
    requires Forms(m, k, baseline) && k >= 11 && (baseline.Some? ==> baseline.value == Minute(9))
    requires 0 in m.timers && m.timers[0] == Timer(Minute(10), ISSUED) && Minute(10) in m.pendingFinalizations
    requires Key(PAIR, Minute(10)) in m.working.working
    requires m.working.working[Key(PAIR, Minute(10))] == SnapshotOf(PacketOf(10))
    requires SafeInteger(Now(k))
    ensures m' == GraceElapsed(m, 0, Now(k))
    ensures m' == m.(timers := m.timers - {0}, flight := Some(Persisting(FIRST, CandleOf(10))))
    ensures Forms(m'.(flight := None), k, baseline)
  {
    var m1 := m.(timers := m.timers - {0});
    var queued := m1.(readyToCommit := m1.readyToCommit[Minute(10) := FIRST]);
    assert queued.readyToCommit.Keys == {Minute(10)};
    assert queued.readyToCommit - {Minute(10)} == map[];
    m' := GraceElapsed(m, 0, Now(k));
    assert m' == Enqueue(m1, FIRST, Now(k));
    assert m' == StartCommit(m1, FIRST, Now(k));
  }
}
