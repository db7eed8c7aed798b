/** What every run of the canonical engine keeps, over any interleaving and any
    number of stop/start cycles. */
module EngineInvariants {
  import opened Common
  import opened WorkingCandle
  import opened PairState
  import opened PairStateTheorems
  import opened Engine

  // ============================================================ invariants

  /** One state machine per run; only the newest, in its own run, is ever in service. */
  ghost predicate Lineage(w: World) {
    && (forall i :: 0 <= i < |w.machines| ==> Descends(w, i))
    && (forall i, j :: 0 <= i < j < |w.machines| ==> w.machines[i].runId < w.machines[j].runId)
    && (w.installed.Some? ==> w.installed.value == |w.machines| - 1 && w.machines[|w.machines| - 1].runId == w.runId)
    && (w.machines != [] && w.machines[|w.machines| - 1].runId == w.runId ==> w.installed.Some?)
  }

  ghost predicate Descends(w: World, i: nat)
    requires i < |w.machines|
  {
    var m := w.machines[i].machine;
    && Invariant(m) && m.pair == w.pair
    && w.machines[i].runId <= w.runId
    && (!m.stopped ==> w.installed == Some(i))
  }

  predicate Settled(x: Write) {
    x.outcome.Some?
  }

  predicate Open(x: Write) {
    !x.stage.Consumed?
  }

  ghost predicate AllSettled(w: World) {
    forall k :: 0 <= k < |w.writes| ==> Settled(w.writes[k])
  }

  /** The cross-run write barrier: the physical writes of the pair never overlap. */
  ghost predicate Barrier(w: World) {
    && (forall k :: 0 <= k < |w.writes| ==> WriteFits(w, w.writes[k]))
    && (forall k, l :: 0 <= k < l < |w.writes| && Open(w.writes[k]) && Open(w.writes[l]) ==> w.writes[k].machine != w.writes[l].machine)
    && (forall k :: 0 <= k < |w.writes| - 1 ==> Settled(w.writes[k]))
    && (w.installed.Some? ==> forall k :: 0 <= k < |w.writes| && w.writes[k].machine != w.installed.value ==> Settled(w.writes[k]))
  }

  ghost predicate WriteFits(w: World, x: Write) {
    && x.machine < |w.machines|
    && (Settled(x) <==> !x.stage.Queued? && !x.stage.Running?)
    && (Open(x) ==> w.machines[x.machine].machine.flight == Some(Persisting(x.candidate, x.candle)))
    && (x.stage.Answered? && x.stage.ok ==> x.outcome != Some(THROWN))
    && (x.stage.Notifying? ==> x.outcome == Some(INSERTED))
    && (Landed(x) ==> x.candle.openTimeMs in w.store)
  }

  /** The row of a write is in the store. */
  predicate Landed(x: Write) {
    x.stage == Running(true) || x.outcome == Some(INSERTED) || x.outcome == Some(ALREADY_IDENTICAL)
  }

  /** An attempt that could still install its machine. */
  predicate Live(w: World, a: Attempt) {
    !a.stage.Over? && a.runId == w.runId && a.pairRevision == w.pairRevision
  }

  ghost predicate Ownership(w: World) {
    && (forall k :: 0 <= k < |w.attempts| ==> w.attempts[k].pairRevision <= w.pairRevision && w.attempts[k].runId <= w.runId)
    && (forall k, l :: 0 <= k < l < |w.attempts| ==> w.attempts[k].pairRevision < w.attempts[l].pairRevision)
    && (forall k :: 0 <= k < |w.attempts| && Live(w, w.attempts[k]) ==> AttemptFits(w, w.attempts[k].stage))
  }

  /** While an attempt is live nothing is installed, so no write can be enqueued behind its barrier. */
  ghost predicate AttemptFits(w: World, stage: AttemptStage) {
    && w.installed.None?
    && match stage
       case AwaitingBarrier(tail) => tail == |w.writes|
       case Reading(failed) => AllSettled(w) && failed == LastFailed(w.writes, |w.writes|)
       case BaselineRead(failed, baseline) =>
         AllSettled(w) && failed == LastFailed(w.writes, |w.writes|) && baseline == LatestStored(w.store)
       case Over => true
  }

  ghost predicate Safe(w: World) {
    WellFormed(w) && Lineage(w) && Barrier(w) && Ownership(w)
  }

  // ------------------------------------------- invariants above a baseline

  ghost function Top(store: map<int, Candle>): (top: int)
    requires store.Keys != {}
    ensures top in store && forall t <- store.Keys :: t <= top
  {
    Greatest(store.Keys)
  }

  /** The store extends its baseline minute by minute, without a hole, up to its newest row. */
  ghost predicate Extends(store: map<int, Candle>, base: map<int, Candle>)
    requires base.Keys != {}
  {
    && store.Keys != {}
    && (forall t <- base :: t in store && store[t] == base[t])
    && (forall t :: t in store <==> t in base || OnGrid(t, Top(base), Top(store)))
  }

  predicate OnGrid(t: int, low: int, high: int) {
    low < t <= high && (t - low) % MINUTE_MS == 0
  }

  predicate Adjacent(t: int, top: int) {
    t == top || t == top + MINUTE_MS
  }

  ghost predicate Coverage(w: World, base: map<int, Candle>)
    requires base.Keys != {}
  {
    && Extends(w.store, base)
    && (w.installed.Some? && w.installed.value < |w.machines| ==>
          var latest := w.machines[w.installed.value].machine.latest;
          latest.Some? && Adjacent(Top(w.store), latest.value))
    && (forall k :: 0 <= k < |w.writes| && !Settled(w.writes[k]) ==> Adjacent(w.writes[k].candle.openTimeMs, Top(w.store)))
  }

  /** A row that its own write inserted and that has not been announced yet. */
  predicate Unannounced(x: Write) {
    x.stage == Running(true) || (x.stage.Resolved? && x.outcome == Some(INSERTED))
  }

  ghost predicate Publication(w: World, base: map<int, Candle>)
    requires base.Keys != {}
  {
    && (forall i, j :: 0 <= i < j < |w.events| ==> w.events[i].openTimeMs < w.events[j].openTimeMs)
    && (forall i :: 0 <= i < |w.events| ==> w.events[i].openTimeMs in w.store && w.events[i].openTimeMs > Top(base))
    && (forall k, i :: 0 <= k < |w.writes| && 0 <= i < |w.events| && Unannounced(w.writes[k]) && w.installed == Some(w.writes[k].machine) ==>
          w.events[i].openTimeMs < w.writes[k].candle.openTimeMs)
    && (forall k :: 0 <= k < |w.writes| && Unannounced(w.writes[k]) ==> w.writes[k].candle.openTimeMs > Top(base))
  }

  ghost predicate Announced(w: World, openTimeMs: int) {
    exists i :: 0 <= i < |w.events| && w.events[i].openTimeMs == openTimeMs
  }

  ghost predicate Delivered(w: World) {
    && NoDuplicates(w.subscribers)
    && (forall d :: 0 <= d < |w.deliveries| ==>
          w.deliveries[d].eventRun == w.deliveries[d].runAtDelivery && Announced(w, w.deliveries[d].openTimeMs))
    && (forall d, e :: 0 <= d < e < |w.deliveries| && w.deliveries[d].subscriber == w.deliveries[e].subscriber ==>
          w.deliveries[d].openTimeMs < w.deliveries[e].openTimeMs)
    && (forall k :: 0 <= k < |w.writes| && w.writes[k].stage.Notifying? ==> Dispatching(w, w.writes[k]))
  }

  ghost predicate Dispatching(w: World, x: Write)
    requires x.stage.Notifying?
  {
    && NoDuplicates(x.stage.recipients) && x.stage.dispatchRun <= w.runId
    && Announced(w, x.candle.openTimeMs)
    && (x.stage.dispatchRun == w.runId ==>
          && w.installed == Some(x.machine)
          && (forall i :: 0 <= i < |w.events| ==> w.events[i].openTimeMs <= x.candle.openTimeMs)
          && (forall d :: 0 <= d < |w.deliveries| && w.deliveries[d].openTimeMs == x.candle.openTimeMs ==>
                w.deliveries[d].subscriber !in x.stage.recipients))
  }

  ghost predicate Continuous(w: World, base: map<int, Candle>)
    requires base.Keys != {}
  {
    Coverage(w, base) && Publication(w, base) && Delivered(w)
  }

  // ====================================================== kinds of change

  /** Nothing has changed that the invariants speak about, but perhaps the attempts. */
  ghost predicate SameCore(w: World, w': World) {
    && w'.pair == w.pair && w'.runId == w.runId
    && w'.machines == w.machines && w'.installed == w.installed
    && w'.writes == w.writes && w'.store == w.store && w'.subscribers == w.subscribers
    && w'.events == w.events && w'.deliveries == w.deliveries
  }

  lemma {:induction false} SameCoreIsSafe(w: World, w': World)
    requires Safe(w) && SameCore(w, w')
    ensures Lineage(w') && Barrier(w')
    ensures w'.attempts == w.attempts && w'.pairRevision == w.pairRevision ==> Ownership(w')
  {
    hide Invariant, LatestStored, LastFailed, WellFormed;
    assert Lineage(w') by {
      forall i | 0 <= i < |w'.machines| ensures Descends(w', i) {
        assert Descends(w, i);
      }
    }
    assert Barrier(w') by {
      forall k | 0 <= k < |w'.writes| ensures WriteFits(w', w'.writes[k]) {
        assert WriteFits(w, w.writes[k]);
      }
    }
    if w'.attempts == w.attempts && w'.pairRevision == w.pairRevision {
      forall k | 0 <= k < |w'.attempts| && Live(w', w'.attempts[k]) ensures AttemptFits(w', w'.attempts[k].stage) {
        assert AttemptFits(w, w.attempts[k].stage);
      }
    }
  }

  lemma {:induction false} SameCoreIsContinuous(w: World, w': World, base: map<int, Candle>)
    requires base.Keys != {} && Continuous(w, base) && SameCore(w, w')
    ensures Continuous(w', base)
  {
    hide Extends, NoDuplicates, Top;
    assert Coverage(w', base);
    assert Publication(w', base);
    assert Delivered(w') by {
      forall t: int ensures Announced(w', t) == Announced(w, t) {
      }
      forall k | 0 <= k < |w'.writes| && w'.writes[k].stage.Notifying? ensures Dispatching(w', w'.writes[k]) {
        assert Dispatching(w, w.writes[k]);
      }
    }
  }

  /** A machine reacts. Consuming an answer presupposes that its write is no longer open. */
  ghost predicate MayReact(w: World, i: nat, s: Stimulus)
    requires i < |w.machines|
  {
    && !s.Stopped?
    && Enabled(w.machines[i].machine, s)
    && (s.CommitAnswered? ==> forall k :: 0 <= k < |w.writes| && w.writes[k].machine == i ==> !Open(w.writes[k]))
    && (s == CommitAnswered(true) && Writing(w.machines[i].machine) ==> w.machines[i].machine.flight.value.candle.openTimeMs in w.store)
  }

  lemma {:induction false} AbsorbKeepsLineage(w: World, i: nat, s: Stimulus, m: Machine)
    requires Safe(w) && i < |w.machines| && Invariant(m) && Evolves(w.machines[i].machine, s, m)
    ensures Lineage(Absorb(w, i, m))
  {
    hide Invariant, Barrier, Ownership;
    var w' := Absorb(w, i, m);
    forall j | 0 <= j < |w'.machines| ensures Descends(w', j) {
      assert Descends(w, j) && Descends(w, i);
    }
  }

  /** Only the installed machine may start a write, and then every write before it has settled. */
  lemma {:induction false} WritersWait(w: World, i: nat, s: Stimulus, m: Machine)
    requires Safe(w) && i < |w.machines| && Evolves(w.machines[i].machine, s, m)
    requires StartsWrite(w.machines[i].machine, m)
    ensures w.installed == Some(i) && AllSettled(w)
    ensures forall k :: 0 <= k < |w.writes| && w.writes[k].machine == i ==> !Open(w.writes[k])
  {
    hide Invariant, Ownership;
    assert Descends(w, i);
    forall k | 0 <= k < |w.writes| ensures Settled(w.writes[k]) && (w.writes[k].machine == i ==> !Open(w.writes[k])) {
      assert WriteFits(w, w.writes[k]);
    }
  }

  lemma {:induction false} AbsorbKeepsBarrier(w: World, i: nat, s: Stimulus, m: Machine)
    requires Safe(w) && i < |w.machines| && MayReact(w, i, s) && Invariant(m) && Evolves(w.machines[i].machine, s, m)
    ensures Barrier(Absorb(w, i, m))
  {
    hide Invariant, Ownership, Lineage;
    var w' := Absorb(w, i, m);
    if StartsWrite(w.machines[i].machine, m) {
      WritersWait(w, i, s, m);
    }
    forall k | 0 <= k < |w'.writes| ensures WriteFits(w', w'.writes[k]) {
      if k < |w.writes| {
        assert WriteFits(w, w.writes[k]);
      }
    }
  }

  lemma {:induction false} AbsorbKeepsOwnership(w: World, i: nat, s: Stimulus, m: Machine)
    requires Safe(w) && i < |w.machines| && Evolves(w.machines[i].machine, s, m)
    ensures Ownership(Absorb(w, i, m))
  {
    var w' := Absorb(w, i, m);
    if StartsWrite(w.machines[i].machine, m) {
      WritersWait(w, i, s, m);
    }
    hide Invariant, Barrier, Lineage, LatestStored;
    forall k | 0 <= k < |w'.attempts| && Live(w', w'.attempts[k]) ensures AttemptFits(w', w'.attempts[k].stage) {
      assert AttemptFits(w, w.attempts[k].stage);
    }
  }

  lemma {:induction false} AbsorbIsSafe(w: World, i: nat, s: Stimulus, m: Machine)
    requires Safe(w) && i < |w.machines| && MayReact(w, i, s) && Invariant(m) && Evolves(w.machines[i].machine, s, m)
    ensures Safe(Absorb(w, i, m))
  {
    AbsorbKeepsLineage(w, i, s, m);
    AbsorbKeepsBarrier(w, i, s, m);
    AbsorbKeepsOwnership(w, i, s, m);
    assert WellFormed(Absorb(w, i, m)) by {
      hide Lineage, Barrier, Ownership, Invariant, Evolves, MayReact;
    }
    hide Lineage, Barrier, Ownership, WellFormed, Absorb;
  }

  lemma {:induction false} AbsorbKeepsCoverage(w: World, i: nat, s: Stimulus, m: Machine, base: map<int, Candle>)
    requires Safe(w) && i < |w.machines| && MayReact(w, i, s) && Invariant(m) && Evolves(w.machines[i].machine, s, m)
    requires base.Keys != {} && Coverage(w, base)
    ensures Coverage(Absorb(w, i, m), base)
  {
    if StartsWrite(w.machines[i].machine, m) {
      WritersWait(w, i, s, m);
    }
    assert Descends(w, i);
    hide Extends, Barrier, Ownership, Filed, CandidateFits;
    var w' := Absorb(w, i, m);
    var before := w.machines[i].machine;
    if m.latest != before.latest {
      assert before.flight.value.candle.openTimeMs in w.store;
    }
  }

  /** At most a queued write has been added, and nothing has been published. */
  ghost predicate NothingPublished(w: World, w': World) {
    && (w'.writes == w.writes || (exists x :: w'.writes == w.writes + [x] && x.stage.Queued? && x.outcome.None?))
    && w'.store == w.store && w'.events == w.events && w'.deliveries == w.deliveries
    && w'.subscribers == w.subscribers && w'.runId == w.runId && w'.installed == w.installed
  }

  lemma {:induction false} NothingPublishedKeeps(w: World, w': World, base: map<int, Candle>)
    requires base.Keys != {} && Publication(w, base) && Delivered(w) && NothingPublished(w, w')
    ensures Publication(w', base) && Delivered(w')
  {
    hide NoDuplicates, Top;
    assert Publication(w', base);
    forall t: int ensures Announced(w', t) == Announced(w, t) {
    }
    forall k | 0 <= k < |w'.writes| && w'.writes[k].stage.Notifying? ensures Dispatching(w', w'.writes[k]) {
      assert Dispatching(w, w.writes[k]);
    }
  }

  lemma {:induction false} AbsorbIsContinuous(w: World, i: nat, s: Stimulus, m: Machine, base: map<int, Candle>)
    requires Safe(w) && i < |w.machines| && MayReact(w, i, s) && Invariant(m) && Evolves(w.machines[i].machine, s, m)
    requires base.Keys != {} && Continuous(w, base)
    ensures Continuous(Absorb(w, i, m), base)
  {
    AbsorbKeepsCoverage(w, i, s, m, base);
    assert NothingPublished(w, Absorb(w, i, m));
    hide Coverage, Publication, Delivered, NothingPublished, Absorb;
    NothingPublishedKeeps(w, Absorb(w, i, m), base);
  }

  // =========================================== reactions inside the engine

  /** How a machine ages: tokens are never re-issued, absorbing faults stay, the watermark only advances by whole minutes. */
  predicate Ages(m: Machine, m': Machine) {
    && m'.pair == m.pair && EpochsGrow(m, m')
    && (Absorbing(m.truthFault) ==> Absorbing(m'.truthFault))
    && (m.latest.Some? ==> m'.latest.Some? && m.latest.value <= m'.latest.value && (m'.latest.value - m.latest.value) % MINUTE_MS == 0)
  }

  /** How the world ages. Rows, events and deliveries are only ever added, and a machine
      with an absorbing fault, or a stopped one, adds no write. */
  ghost predicate Since(past: World, w: World) {
    && past.runId <= w.runId
    && |past.machines| <= |w.machines|
    && (forall i :: 0 <= i < |past.machines| ==>
          w.machines[i].runId == past.machines[i].runId && Ages(past.machines[i].machine, w.machines[i].machine))
    && |past.writes| <= |w.writes|
    && (forall k :: 0 <= k < |past.writes| ==>
          w.writes[k] == past.writes[k].(stage := w.writes[k].stage, outcome := w.writes[k].outcome))
    && (forall k :: |past.writes| <= k < |w.writes| && w.writes[k].machine < |past.machines| ==>
          var m := past.machines[w.writes[k].machine].machine; !Absorbing(m.truthFault) && !m.stopped)
    && (forall t <- past.store :: t in w.store && w.store[t] == past.store[t])
    && past.events <= w.events && past.deliveries <= w.deliveries
  }

  ghost predicate Holds(w: World, base: map<int, Candle>, past: World) {
    Safe(w) && (base.Keys != {} ==> Continuous(w, base)) && Since(past, w)
  }

  lemma {:induction false} SinceSelf(w: World)
    ensures Since(w, w)
  {
  }

  lemma {:induction false} EvolvingAges(past: Machine, m: Machine, s: Stimulus, m': Machine)
    requires Ages(past, m) && Evolves(m, s, m')
    ensures Ages(past, m')
  {
  }

  lemma {:induction false} AbsorbAges(past: World, w: World, i: nat, s: Stimulus, m: Machine)
    requires Since(past, w) && i < |w.machines| && Evolves(w.machines[i].machine, s, m)
    ensures Since(past, Absorb(w, i, m))
  {
    var before := w.machines[i].machine;
    if i < |past.machines| {
      EvolvingAges(past.machines[i].machine, before, s, m);
      assert StartsWrite(before, m) ==> !Absorbing(past.machines[i].machine.truthFault) && !past.machines[i].machine.stopped;
    }
    hide Ages, Evolves, StartsWrite, Absorbing;
  }

  lemma {:induction false} TouchHolds(w: World, i: nat, s: Stimulus, cfg: Config, base: map<int, Candle>, past: World)
    requires Holds(w, base, past) && i < |w.machines| && MayReact(w, i, s)
    ensures Holds(Touch(w, i, s, cfg), base, past)
  {
    var r := React(w.machines[i].machine, s, cfg);
    var w1 := Absorb(w, i, r.machine);
    assert Descends(w, i);
    ReactionEvolves(w.machines[i].machine, s, cfg);
    AbsorbIsSafe(w, i, s, r.machine);
    AbsorbAges(past, w, i, s, r.machine);
    if base.Keys != {} {
      AbsorbIsContinuous(w, i, s, r.machine, base);
    }
    PerformIsInert(w1, i, r.effect);
    hide Safe, Continuous, Since, Absorb, React, Perform, SameCore;
    InertHolds(w1, Perform(w1, i, r.effect), base, past);
  }

  lemma {:induction false} PerformIsInert(w: World, i: nat, effect: Effect)
    requires WellFormed(w) && i < |w.machines|
    ensures var w' := Perform(w, i, effect);
            SameCore(w, w') && w'.attempts == w.attempts && w'.pairRevision == w.pairRevision && WellFormed(w')
  {
  }

  /** A change outside the core has only to keep the ownership rules of the attempts. */
  lemma {:induction false} InertHolds(w: World, w': World, base: map<int, Candle>, past: World)
    requires Holds(w, base, past) && SameCore(w, w') && WellFormed(w')
    requires (w'.attempts == w.attempts && w'.pairRevision == w.pairRevision) || Ownership(w')
    ensures Holds(w', base, past)
  {
    SameCoreIsSafe(w, w');
    if base.Keys != {} {
      SameCoreIsContinuous(w, w', base);
    }
    hide Lineage, Barrier, Ownership, Continuous, WellFormed, SameCore;
  }

  lemma {:induction false} ExecuteRecoveryHolds(w: World, fromMs: int, toMs: int, epoch: int, base: map<int, Candle>, past: World)
    requires Holds(w, base, past)
    ensures Holds(ExecuteRecovery(w, fromMs, toMs, epoch), base, past)
  {
    hide Lineage, Barrier, Ownership, Continuous;
    InertHolds(w, ExecuteRecovery(w, fromMs, toMs, epoch), base, past);
  }

  lemma {:induction false} ReconciledHolds(w: World, i: nat, now: int, cfg: Config, base: map<int, Candle>, past: World)
    requires Holds(w, base, past) && i < |w.machines|
    ensures Holds(Reconciled(w, i, now, cfg), base, past)
  {
    hide Holds, Touch, ExecuteRecovery;
    var m := w.machines[i].machine;
    if m.reconnectRecoveryFromMs.Some? {
      ExecuteRecoveryHolds(w, m.reconnectRecoveryFromMs.value, now / MINUTE_MS * MINUTE_MS - MINUTE_MS, m.recoveryEpoch, base, past);
    }
    TouchHolds(w, i, HandoffAwaited(if m.latest.None? then NO_BASELINE else NOTHING_MISSING), cfg, base, past);
  }

  lemma {:induction false} StopHolds(w: World, cfg: Config, base: map<int, Candle>, past: World)
    requires Holds(w, base, past)
    ensures Holds(StopEngine(w, cfg), base, past)
  {
    if !w.isStopped {
      StopIsSafe(w, cfg);
      StopAges(past, w, cfg);
      if base.Keys != {} {
        StopIsContinuous(w, cfg, base);
      }
      hide Safe, Continuous, Since, StopEngine;
    }
  }

  lemma {:induction false} StopAges(past: World, w: World, cfg: Config)
    requires Safe(w) && Since(past, w)
    ensures Since(past, StopEngine(w, cfg))
  {
    hide Ages, Stop, Evolves, Invariant, Barrier, Ownership;
    if w.installed.Some? {
      var i := w.installed.value;
      var m := w.machines[i].machine;
      assert Descends(w, i);
      StoppingEvolves(m);
      if i < |past.machines| {
        EvolvingAges(past.machines[i].machine, m, Stopped, Stop(m));
      }
    }
  }

  lemma {:induction false} StopIsSafe(w: World, cfg: Config)
    requires Safe(w) && !w.isStopped
    ensures Safe(StopEngine(w, cfg))
  {
    hide Lineage, Barrier, Ownership, StopEngine, HaltsTo;
    var w' := StopEngine(w, cfg);
    StopHalts(w, cfg);
    HaltingKeepsLineage(w, w');
    HaltingKeepsBarrier(w, w');
    HaltingKeepsOwnership(w, w');
  }

  /** The run has ended and all its machines are stopped. */
  ghost predicate HaltsTo(w: World, w': World) {
    && w' == w.(isStopped := true, runId := w.runId + 1, streamGeneration := None, reconnectGeneration := None,
                streamRevision := w.streamRevision + 1, installed := None, subscribers := [], machines := w'.machines)
    && |w'.machines| == |w.machines|
    && forall j :: 0 <= j < |w.machines| ==>
         && w'.machines[j].runId == w.machines[j].runId
         && Halts(w.machines[j].machine, w'.machines[j].machine)
  }

  ghost predicate Halts(m: Machine, m': Machine) {
    m'.stopped && m'.pair == m.pair && m'.flight == m.flight && (Invariant(m) ==> Invariant(m'))
  }

  lemma {:induction false} StopHalts(w: World, cfg: Config)
    requires WellFormed(w) && Lineage(w) && !w.isStopped
    ensures HaltsTo(w, StopEngine(w, cfg))
  {
    hide Invariant, Stop;
    if w.installed.Some? {
      MachineHalts(w.machines[w.installed.value].machine);
    }
    forall j | 0 <= j < |w.machines| && w.installed != Some(j) ensures w.machines[j].machine.stopped {
      assert Descends(w, j);
    }
  }

  lemma {:induction false} MachineHalts(m: Machine)
    ensures Halts(m, Stop(m))
  {
    StoppingIsQuiet(m);
    if Invariant(m) {
      QuietKeeps(m, Stop(m));
    }
  }

  lemma {:induction false} HaltingKeepsLineage(w: World, w': World)
    requires WellFormed(w) && Lineage(w) && HaltsTo(w, w')
    ensures Lineage(w') && WellFormed(w')
  {
    hide Invariant;
    forall j | 0 <= j < |w'.machines| ensures Descends(w', j) {
      assert Descends(w, j);
    }
    if w.machines != [] {
      assert Descends(w, |w.machines| - 1);
    }
  }

  lemma {:induction false} HaltingKeepsBarrier(w: World, w': World)
    requires Barrier(w) && HaltsTo(w, w')
    ensures Barrier(w')
  {
    hide Invariant;
    forall k | 0 <= k < |w'.writes| ensures WriteFits(w', w'.writes[k]) {
      assert WriteFits(w, w.writes[k]);
    }
  }

  lemma {:induction false} HaltingKeepsOwnership(w: World, w': World)
    requires Ownership(w) && HaltsTo(w, w')
    ensures Ownership(w')
  {
    hide Halts, LatestStored, LastFailed;
  }

  lemma {:induction false} StopIsContinuous(w: World, cfg: Config, base: map<int, Candle>)
    requires Safe(w) && base.Keys != {} && Continuous(w, base)
    ensures Continuous(StopEngine(w, cfg), base)
  {
    hide Extends, Lineage, Barrier, Ownership, Stop, Top;
    var w' := StopEngine(w, cfg);
    assert Delivered(w') by {
      forall t: int ensures Announced(w', t) == Announced(w, t) {
      }
      forall k | 0 <= k < |w'.writes| && w'.writes[k].stage.Notifying? ensures Dispatching(w', w'.writes[k]) {
        assert Dispatching(w, w.writes[k]);
      }
    }
    hide Delivered;
    assert Coverage(w', base);
    assert Publication(w', base);
  }

  lemma {:induction false} RetuningHolds(w: World, g: int, barrier: bool, base: map<int, Candle>, past: World)
    requires Holds(w, base, past)
    ensures Holds(Retuned(w, g, barrier), base, past)
  {
    var w' := Retuned(w, g, barrier);
    assert SameCore(w, w') && WellFormed(w');
    hide Lineage, Barrier, Ownership, Continuous, SameCore, WellFormed;
    InertHolds(w, w', base, past);
  }

  lemma {:induction false} RaisingHolds(w: World, g: int, stops: bool, now: int, cfg: Config, base: map<int, Candle>, past: World)
    requires Holds(w, base, past)
    ensures Holds(RaiseBarrier(w, g, stops, now, cfg), base, past)
  {
    assert WellFormed(w);
    hide Holds, Touch, Reconciled, StopEngine;
    if w.installed.Some? {
      TouchHolds(w, w.installed.value, Reconnected(g), cfg, base, past);
      var w1 := Touch(w, w.installed.value, Reconnected(g), cfg);
      StopHolds(w1, cfg, base, past);
      ReconciledHolds(w1, w.installed.value, now, cfg, base, past);
    }
  }

  lemma {:induction false} ObserveHolds(w: World, g: int, recoveryRequired: bool, stops: bool, now: int, cfg: Config, base: map<int, Candle>, past: World)
    requires Holds(w, base, past)
    ensures var r := ObserveGeneration(w, g, recoveryRequired, stops, now, cfg); r.Some? ==> Holds(r.value, base, past)
  {
    RetuningHolds(w, g, true, base, past);
    RetuningHolds(w, g, false, base, past);
    assert WellFormed(Retuned(w, g, true));
    RaisingHolds(Retuned(w, g, true), g, stops, now, cfg, base, past);
    hide Holds, RaiseBarrier, Retuned, NewGeneration;
  }

  // -------------------------------------------------------- initialisation

  lemma {:induction false} BeginHolds(w: World, base: map<int, Candle>, past: World)
    requires Holds(w, base, past)
    ensures Holds(BeginAttempt(w), base, past)
  {
    var w' := BeginAttempt(w);
    if w' != w {
      assert Ownership(w') by {
        hide Lineage, Barrier, Continuous, LatestStored;
      }
      hide Ownership;
      InertHolds(w, w', base, past);
    }
  }

  /** An attempt moves on; unless it is over, it has to fit its new stage. */
  lemma {:induction false} AttemptHolds(w: World, k: nat, stage: AttemptStage, base: map<int, Candle>, past: World)
    requires Holds(w, base, past) && k < |w.attempts|
    requires Live(w, w.attempts[k].(stage := stage)) ==> AttemptFits(w, stage)
    ensures Holds(WithAttempt(w, k, stage), base, past)
  {
    var w' := WithAttempt(w, k, stage);
    assert Ownership(w') by {
      hide Lineage, Barrier, Continuous, LatestStored, LastFailed;
      forall l | 0 <= l < |w'.attempts| && Live(w', w'.attempts[l]) ensures AttemptFits(w', w'.attempts[l].stage) {
        if l != k {
          assert AttemptFits(w, w.attempts[l].stage);
        } else {
          assert AttemptFits(w, stage);
        }
      }
    }
    hide Ownership, AttemptFits, Live;
    InertHolds(w, w', base, past);
  }

  /** Every write enqueued before the barrier has settled once its tail has. */
  lemma {:induction false} BarrierPassedHolds(w: World, k: nat, base: map<int, Candle>, past: World)
    requires Holds(w, base, past) && k < |w.attempts| && w.attempts[k].stage.AwaitingBarrier?
    requires SettledUpTo(w.writes, w.attempts[k].stage.tail)
    ensures Holds(WithAttempt(w, k, if Owns(w, w.attempts[k]) then Reading(LastFailed(w.writes, w.attempts[k].stage.tail)) else Over), base, past)
  {
    var stage := if Owns(w, w.attempts[k]) then Reading(LastFailed(w.writes, w.attempts[k].stage.tail)) else Over;
    assert Live(w, w.attempts[k].(stage := stage)) ==> AttemptFits(w, stage);
    hide Holds;
    AttemptHolds(w, k, stage, base, past);
  }

  lemma {:induction false} BaselineFetchedHolds(w: World, k: nat, ok: bool, base: map<int, Candle>, past: World)
    requires Holds(w, base, past) && k < |w.attempts| && w.attempts[k].stage.Reading?
    ensures Holds(WithAttempt(w, k, if ok then BaselineRead(w.attempts[k].stage.failed, LatestStored(w.store)) else Over), base, past)
  {
    var stage := if ok then BaselineRead(w.attempts[k].stage.failed, LatestStored(w.store)) else Over;
    assert Live(w, w.attempts[k].(stage := stage)) ==> AttemptFits(w, stage);
    hide Holds;
    AttemptHolds(w, k, stage, base, past);
  }

  lemma {:induction false} InstalledIsSafe(w: World, k: nat)
    requires Safe(w) && k < |w.attempts| && w.attempts[k].stage.BaselineRead? && Owns(w, w.attempts[k])
    ensures Safe(Installed(w, k))
  {
    var w' := Installed(w, k);
    assert AttemptFits(w, w.attempts[k].stage);
    hide LatestStored, LastFailed;
    assert Lineage(w') by {
      hide Barrier, Ownership;
      forall j | 0 <= j < |w'.machines| ensures Descends(w', j) {
        if j < |w.machines| {
          assert Descends(w, j);
        }
      }
      if w.machines != [] {
        assert Descends(w, |w.machines| - 1);
      }
    }
    assert Barrier(w') by {
      hide Ownership, Lineage;
      forall l | 0 <= l < |w'.writes| ensures WriteFits(w', w'.writes[l]) {
        assert WriteFits(w, w.writes[l]);
      }
    }
    assert Ownership(w') by {
      hide Lineage, Barrier;
    }
  }

  lemma {:induction false} InstalledIsContinuous(w: World, k: nat, base: map<int, Candle>)
    requires Safe(w) && k < |w.attempts| && w.attempts[k].stage.BaselineRead? && Owns(w, w.attempts[k])
    requires base.Keys != {} && Continuous(w, base)
    ensures Continuous(Installed(w, k), base)
  {
    var w' := Installed(w, k);
    assert AttemptFits(w, w.attempts[k].stage);
    assert forall l :: 0 <= l < |w.writes| ==> w.writes[l].machine < |w.machines|;
    hide Extends, Lineage, Barrier, Ownership, NoDuplicates, WellFormed;
    assert Coverage(w', base);
    assert Publication(w', base);
    assert Delivered(w') by {
      forall t: int ensures Announced(w', t) == Announced(w, t) {
      }
      forall l | 0 <= l < |w'.writes| && w'.writes[l].stage.Notifying? ensures Dispatching(w', w'.writes[l]) {
        assert Dispatching(w, w.writes[l]);
      }
    }
  }

  lemma {:induction false} InstalledHolds(w: World, k: nat, base: map<int, Candle>, past: World)
    requires Holds(w, base, past) && k < |w.attempts| && w.attempts[k].stage.BaselineRead? && Owns(w, w.attempts[k])
    ensures var w' := Installed(w, k);
            Holds(w', base, past) && WellFormed(w') && |w'.machines| == |w.machines| + 1
  {
    InstalledIsSafe(w, k);
    if base.Keys != {} {
      InstalledIsContinuous(w, k, base);
    }
    hide Safe, Continuous, WellFormed, Lineage, Barrier, Ownership;
    assert WellFormed(Installed(w, k)) by {
      SafeIsWellFormed(Installed(w, k));
    }
  }

  lemma {:induction false} SafeIsWellFormed(w: World)
    requires Safe(w)
    ensures WellFormed(w)
  {
  }

  lemma {:induction false} HoldingIsWellFormed(w: World, base: map<int, Candle>, past: World)
    requires Holds(w, base, past)
    ensures WellFormed(w)
  {
  }

  lemma {:induction false} InstallHolds(w: World, k: nat, now: int, cfg: Config, base: map<int, Candle>, past: World)
    requires Holds(w, base, past) && k < |w.attempts| && w.attempts[k].stage.BaselineRead?
    ensures Holds(Install(w, k, now, cfg), base, past)
  {
    hide Holds, Touch, Reconciled, Owns, Installed, WellFormed;
    HoldingIsWellFormed(w, base, past);
    var a := w.attempts[k];
    if Owns(w, a) {
      InstalledHolds(w, k, base, past);
      if a.generationId.Some? {
        TouchHolds(Installed(w, k), |w.machines|, Reconnected(a.generationId.value), cfg, base, past);
        ReconciledHolds(Touch(Installed(w, k), |w.machines|, Reconnected(a.generationId.value), cfg), |w.machines|, now, cfg, base, past);
      }
    } else {
      AttemptHolds(w, k, Over, base, past);
    }
  }

  // ------------------------------------------------------------- recoveries

  lemma {:induction false} ProgressHolds(w: World, k: nat, p: Progress, base: map<int, Candle>, past: World)
    requires Holds(w, base, past) && k < |w.recoveries|
    ensures Holds(WithProgress(w, k, p), base, past)
  {
    hide Lineage, Barrier, Ownership, Continuous;
    InertHolds(w, WithProgress(w, k, p), base, past);
  }

  lemma {:induction false} GiveUpHolds(w: World, k: nat, cfg: Config, base: map<int, Candle>, past: World)
    requires Holds(w, base, past) && k < |w.recoveries|
    ensures Holds(GiveUp(w, k, cfg), base, past)
  {
    var r := w.recoveries[k];
    assert r.machine < |w.machines|;
    hide Holds, Touch;
    ProgressHolds(w, k, Closed, base, past);
    TouchHolds(WithProgress(w, k, Closed), r.machine, RecoveryFaulted(RECOVERY_INCOMPLETE, r.epoch), cfg, base, past);
  }

  lemma {:induction false} RestAnsweredHolds(w: World, k: nat, reply: RestReply, now: int, cfg: Config, base: map<int, Candle>, past: World)
    requires Holds(w, base, past) && k < |w.recoveries|
    ensures Holds(RestAnswered(w, k, reply, now, cfg), base, past)
  {
    assert WellFormed(w);
    hide Holds, GiveUp, Batch, CoverageMap, Authoritative;
    GiveUpHolds(w, k, cfg, base, past);
    ProgressHolds(w, k, Closed, base, past);
    forall application ensures Holds(WithProgress(w, k, Applying(application)), base, past) {
      ProgressHolds(w, k, Applying(application), base, past);
    }
  }

  lemma {:induction false} AdvanceHolds(w: World, k: nat, next: PairState.Next, cfg: Config, base: map<int, Candle>, past: World)
    requires Holds(w, base, past) && k < |w.recoveries|
    ensures Holds(Advance(w, k, next, cfg), base, past)
  {
    assert WellFormed(w);
    hide Holds, GiveUp;
    match next
    case Finished => ProgressHolds(w, k, Closed, base, past);
    case Continue(application) => ProgressHolds(w, k, Applying(application), base, past);
    case Threw => GiveUpHolds(w, k, cfg, base, past);
  }

  lemma {:induction false} ApplicationHolds(w: World, k: nat, answer: ReadAnswer, now: int, cfg: Config, base: map<int, Candle>, past: World)
    requires Holds(w, base, past) && CanTake(w, RecoveryContinues(k, answer, now))
    ensures Holds(ApplicationResumes(w, k, answer, now, cfg), base, past)
  {
    var r := w.recoveries[k];
    var s := ApplicationResumed(r.progress.application, answer, now);
    assert WellFormed(w);
    hide Holds, Touch, React, Advance;
    TouchHolds(w, r.machine, s, cfg, base, past);
    AdvanceHolds(Touch(w, r.machine, s, cfg), k, React(w.machines[r.machine].machine, s, cfg).next, cfg, base, past);
  }

  lemma {:induction false} RequestedHolds(w: World, fromMs: int, toMs: int, cfg: Config, base: map<int, Candle>, past: World)
    requires Holds(w, base, past)
    ensures Holds(RequestRecoveryNow(w, fromMs, toMs, cfg), base, past)
  {
    assert WellFormed(w);
    hide Holds, Touch, ExecuteRecovery;
    if w.installed.Some? {
      TouchHolds(w, w.installed.value, RecoveryEntered, cfg, base, past);
      var w1 := Touch(w, w.installed.value, RecoveryEntered, cfg);
      ExecuteRecoveryHolds(w1, fromMs, toMs, w1.machines[w.installed.value].machine.recoveryEpoch, base, past);
    }
  }

  // ---------------------------------------------------------------- packets

  lemma {:induction false} DispatchHolds(w: World, e: Envelope, now: int, cfg: Config, base: map<int, Candle>, past: World)
    requires Holds(w, base, past)
    ensures Holds(DispatchPacket(w, e, now, cfg), base, past)
  {
    assert WellFormed(w);
    if w.installed.Some? {
      TouchHolds(w, w.installed.value, Packet(e, now), cfg, base, past);
    } else {
      BeginHolds(w, base, past);
      hide Lineage, Barrier, Ownership, Continuous;
      InertHolds(BeginAttempt(w), DispatchPacket(w, e, now, cfg), base, past);
    }
  }

  lemma {:induction false} EnvelopeHolds(w: World, g: int, recoveryRequired: bool, packet: Option<Envelope>, stops: bool, now: int, cfg: Config,
                      base: map<int, Candle>, past: World)
    requires Holds(w, base, past)
    ensures Holds(EnvelopeHandled(w, g, recoveryRequired, packet, stops, now, cfg), base, past)
  {
    assert WellFormed(w);
    hide Holds, ObserveGeneration, DispatchPacket, WellFormed;
    ObserveHolds(w, g, recoveryRequired, stops, now, cfg, base, past);
    var observed := ObserveGeneration(w, g, recoveryRequired, stops, now, cfg);
    if observed.Some? && packet.Some? {
      DispatchHolds(observed.value, packet.value, now, cfg, base, past);
    }
  }

  lemma {:induction false} ResumedDispatchHolds(w: World, k: nat, now: int, cfg: Config, base: map<int, Candle>, past: World)
    requires Holds(w, base, past) && k < |w.dispatches|
    ensures Holds(ResumeDispatch(w, k, now, cfg), base, past)
  {
    var d := w.dispatches[k];
    var w1 := w.(dispatches := w.dispatches[..k] + w.dispatches[k + 1..]);
    assert Holds(w1, base, past) && WellFormed(w1) by {
      hide Lineage, Barrier, Ownership, Continuous;
      InertHolds(w, w1, base, past);
    }
    hide Holds, Touch;
    if w.installed.Some? {
      TouchHolds(w1, w.installed.value, Packet(d.envelope, now), cfg, base, past);
    }
  }

  lemma {:induction false} LookupHolds(w: World, k: nat, answer: ReadAnswer, cfg: Config, base: map<int, Candle>, past: World)
    requires Holds(w, base, past) && k < |w.lookups|
    ensures var r := w.lookups[k];
            var w1 := w.(lookups := w.lookups[..k] + w.lookups[k + 1..]);
            WellFormed(w1) && Holds(Touch(w1, r.machine, HistoricalRead(r.late, r.token, answer), cfg), base, past)
  {
    var r := w.lookups[k];
    var w1 := w.(lookups := w.lookups[..k] + w.lookups[k + 1..]);
    assert Holds(w1, base, past) && WellFormed(w1) && r.machine < |w1.machines| by {
      hide Lineage, Barrier, Ownership, Continuous;
      InertHolds(w, w1, base, past);
    }
    hide Holds, Touch;
    TouchHolds(w1, r.machine, HistoricalRead(r.late, r.token, answer), cfg, base, past);
  }

  // ------------------------------------------------------------- the writes

  /** A write moves on, perhaps with a row or an announcement. */
  ghost predicate MovesOn(w: World, k: nat, w': World)
    requires k < |w.writes|
  {
    && |w'.writes| == |w.writes|
    && w' == w.(writes := w.writes[k := w'.writes[k]], store := w'.store, events := w'.events, deliveries := w'.deliveries)
    && var x := w.writes[k];
       var x' := w'.writes[k];
       && x' == x.(stage := x'.stage, outcome := x'.outcome)
       && (Settled(x) ==> x'.outcome == x.outcome)
       && (Open(x') ==> Open(x))
       && (w'.store != w.store ==> !Settled(x))
       && (forall t <- w.store :: t in w'.store)
  }

  lemma {:induction false} MovingOnIsSafe(w: World, k: nat, w': World)
    requires Safe(w) && k < |w.writes| && MovesOn(w, k, w') && WriteFits(w', w'.writes[k])
    ensures Safe(w')
  {
    hide LatestStored, Invariant;
    assert Lineage(w') by {
      hide Barrier, Ownership, MovesOn;
      assert SameMachines(w, w') by {
        assert MovesOn(w, k, w');
      }
      SameMachinesKeepLineage(w, w');
    }
    assert WriteFits(w, w.writes[k]);
    assert Barrier(w') by {
      hide Ownership, Lineage;
      forall l | 0 <= l < |w'.writes| ensures WriteFits(w', w'.writes[l]) {
        if l != k {
          assert WriteFits(w, w.writes[l]) && w'.writes[l] == w.writes[l];
        }
      }
    }
    assert Ownership(w') by {
      hide Lineage, Barrier;
      forall l | 0 <= l < |w'.attempts| && Live(w', w'.attempts[l]) ensures AttemptFits(w', w'.attempts[l].stage) {
        assert AttemptFits(w, w.attempts[l].stage);
      }
    }
  }

  ghost predicate SameMachines(w: World, w': World) {
    w'.pair == w.pair && w'.machines == w.machines && w'.installed == w.installed && w'.runId == w.runId
  }

  lemma {:induction false} SameMachinesKeepLineage(w: World, w': World)
    requires Lineage(w) && SameMachines(w, w')
    ensures Lineage(w')
  {
    forall j | 0 <= j < |w'.machines| ensures Descends(w', j) {
      assert Descends(w, j);
    }
  }

  lemma {:induction false} SilentMoveIsContinuous(w: World, k: nat, w': World, base: map<int, Candle>)
    requires base.Keys != {} && Continuous(w, base) && k < |w.writes| && MovesOn(w, k, w')
    requires w'.store == w.store && w'.events == w.events && w'.deliveries == w.deliveries
    requires Unannounced(w'.writes[k]) ==> Unannounced(w.writes[k])
    requires !w'.writes[k].stage.Notifying?
    ensures Continuous(w', base)
  {
    hide Extends, NoDuplicates, Top;
    assert forall l :: 0 <= l < |w.writes| && l != k ==> w'.writes[l] == w.writes[l];
    assert Coverage(w', base) by {
      hide Publication, Delivered;
    }
    assert Publication(w', base) by {
      hide Coverage, Delivered;
    }
    assert Delivered(w') by {
      hide Coverage, Publication;
      SameAnnouncements(w, w');
      forall l | 0 <= l < |w'.writes| && w'.writes[l].stage.Notifying? ensures Dispatching(w', w'.writes[l]) {
        assert Dispatching(w, w.writes[l]);
      }
    }
  }

  lemma {:induction false} SameAnnouncements(w: World, w': World)
    requires w.events <= w'.events
    ensures forall t :: Announced(w, t) ==> Announced(w', t)
  {
    forall t | Announced(w, t) ensures Announced(w', t) {
      var i :| 0 <= i < |w.events| && w.events[i].openTimeMs == t;
      assert w'.events[i].openTimeMs == t;
    }
  }

  /** A new row is always the one right above the newest. */
  lemma {:induction false} LandsOnTop(w: World, k: nat, base: map<int, Candle>)
    requires Safe(w) && base.Keys != {} && Coverage(w, base) && CanTake(w, WriteLands(k))
    ensures var t := w.writes[k].candle.openTimeMs;
            && t == Top(w.store) + MINUTE_MS
            && Top(Land(w, k).store) == t && Extends(Land(w, k).store, base)
            && (forall l :: 0 <= l < |w.writes| && l != k ==> Settled(w.writes[l]))
            && (w.installed.Some? ==> w.machines[w.installed.value].machine.latest == Some(Top(w.store)))
  {
    var t := w.writes[k].candle.openTimeMs;
    assert WriteFits(w, w.writes[k]);
    assert t == Top(w.store) + MINUTE_MS;
    TopMoves(w.store, t, w.writes[k].candle);
    ExtendsFurther(w.store, t, w.writes[k].candle, base);
    if w.installed.Some? {
      assert Descends(w, w.installed.value);
    }
  }

  lemma {:induction false} TopMoves(store: map<int, Candle>, t: int, candle: Candle)
    requires store.Keys != {} && t > Top(store)
    ensures Top(store[t := candle]) == t
  {
    assert t in store[t := candle];
  }

  lemma {:induction false} ExtendsFurther(store: map<int, Candle>, t: int, candle: Candle, base: map<int, Candle>)
    requires base.Keys != {} && Extends(store, base) && t == Top(store) + MINUTE_MS
    ensures Extends(store[t := candle], base) && Top(base) <= Top(store)
  {
    TopMoves(store, t, candle);
    TopAbove(store, base);
    var low, high := Top(base), Top(store);
    assert OnGrid(t, low, t) by {
      OnGridFrom(store, base);
    }
    forall x ensures x in store[t := candle] <==> x in base || OnGrid(x, low, t) {
      if OnGrid(x, low, t) && x != t {
        OnGridFrom(store, base);
        GridStep(x, low, high);
      }
    }
  }

  lemma {:induction false} TopAbove(store: map<int, Candle>, base: map<int, Candle>)
    requires base.Keys != {} && Extends(store, base)
    ensures Top(base) <= Top(store)
  {
  }

  /** The newest row is on the baseline's grid. */
  lemma {:induction false} OnGridFrom(store: map<int, Candle>, base: map<int, Candle>)
    requires base.Keys != {} && Extends(store, base)
    ensures Top(base) <= Top(store) && (Top(store) - Top(base)) % MINUTE_MS == 0
  {
    TopAbove(store, base);
    assert Top(store) in base || OnGrid(Top(store), Top(base), Top(store));
  }

  lemma {:induction false} GridStep(x: int, low: int, high: int)
    requires (high - low) % MINUTE_MS == 0 && OnGrid(x, low, high + MINUTE_MS) && x != high + MINUTE_MS
    ensures OnGrid(x, low, high)
  {
  }

  lemma {:induction false} LandHolds(w: World, k: nat, base: map<int, Candle>, past: World)
    requires Holds(w, base, past) && CanTake(w, WriteLands(k))
    ensures Holds(Land(w, k), base, past)
  {
    hide Lineage, Barrier, Ownership, Continuous, MovesOn, WriteFits, Land;
    var w' := Land(w, k);
    LandMoves(w, k);
    MovingOnIsSafe(w, k, w');
    MovingAges(w, k, w', past);
    if base.Keys != {} {
      LandIsContinuous(w, k, base);
    }
  }

  lemma {:induction false} LandMoves(w: World, k: nat)
    requires Safe(w) && CanTake(w, WriteLands(k))
    ensures var w' := Land(w, k);
            MovesOn(w, k, w') && WriteFits(w', w'.writes[k]) && w'.events == w.events && w'.deliveries == w.deliveries
            && (forall t <- w.store :: w'.store[t] == w.store[t])
  {
    assert WriteFits(w, w.writes[k]);
    hide Ownership, Lineage;
  }

  /** A move of a write that only adds rows, events and deliveries. */
  lemma {:induction false} MovingAges(w: World, k: nat, w': World, past: World)
    requires Since(past, w) && k < |w.writes| && MovesOn(w, k, w')
    requires w.events <= w'.events && w.deliveries <= w'.deliveries && forall t <- w.store :: w'.store[t] == w.store[t]
    ensures Since(past, w')
  {
    hide Ages, Absorbing;
  }

  lemma {:induction false} LandKeepsCoverage(w: World, k: nat, base: map<int, Candle>)
    requires Safe(w) && base.Keys != {} && Coverage(w, base) && CanTake(w, WriteLands(k))
    ensures Coverage(Land(w, k), base)
  {
    hide Extends, Top, Lineage, Barrier, Ownership;
    LandsOnTop(w, k, base);
    var w' := Land(w, k);
    assert forall l :: 0 <= l < |w.writes| && l != k ==> w'.writes[l] == w.writes[l];
  }

  lemma {:induction false} LandKeepsPublication(w: World, k: nat, base: map<int, Candle>)
    requires Safe(w) && base.Keys != {} && Coverage(w, base) && Publication(w, base) && CanTake(w, WriteLands(k))
    ensures Publication(Land(w, k), base)
  {
    LandsOnTop(w, k, base);
    TopAbove(w.store, base);
    hide Extends, Top, Safe, Coverage;
    var w' := Land(w, k);
    assert forall l :: 0 <= l < |w.writes| && l != k ==> w'.writes[l] == w.writes[l];
  }

  lemma {:induction false} LandKeepsDeliveries(w: World, k: nat)
    requires Delivered(w) && CanTake(w, WriteLands(k))
    ensures Delivered(Land(w, k))
  {
    hide NoDuplicates;
    var w' := Land(w, k);
    SameAnnouncements(w, w');
    forall l | 0 <= l < |w'.writes| && w'.writes[l].stage.Notifying? ensures Dispatching(w', w'.writes[l]) {
      assert Dispatching(w, w.writes[l]);
    }
  }

  lemma {:induction false} LandIsContinuous(w: World, k: nat, base: map<int, Candle>)
    requires Safe(w) && base.Keys != {} && Continuous(w, base) && CanTake(w, WriteLands(k))
    ensures Continuous(Land(w, k), base)
  {
    hide Safe, Coverage, Publication, Delivered, Land;
    LandKeepsCoverage(w, k, base);
    LandKeepsPublication(w, k, base);
    LandKeepsDeliveries(w, k);
  }

  /** No other write of the machine of an open write is open. */
  lemma {:induction false} AloneOnItsMachine(w: World, k: nat, l: nat)
    requires Barrier(w) && k < |w.writes| && l < |w.writes| && k != l
    requires Open(w.writes[k]) && w.writes[k].machine == w.writes[l].machine
    ensures !Open(w.writes[l])
  {
  }

  /** The announcement of an inserted row is the newest event. */
  lemma {:induction false} AnnouncingIsContinuous(w: World, k: nat, base: map<int, Candle>)
    requires Safe(w) && base.Keys != {} && Continuous(w, base) && CanTake(w, WriteCallback(k))
    requires CallbackResumes(w, k).writes[k].stage.Notifying?
    ensures Continuous(CallbackResumes(w, k), base)
  {
    hide Lineage, Barrier, Ownership, Coverage, Publication, Delivered, CallbackResumes, Announcing;
    var w' := CallbackResumes(w, k);
    CallbackAnnounces(w, k);
    AnnouncingKeepsCoverage(w, w', k, base);
    AnnouncingKeepsPublication(w, w', k, base);
    AnnouncingKeepsDeliveries(w, w', k, base);
  }

  /** An inserted row of the machine in service is announced. */
  ghost predicate Announcing(w: World, w': World, k: nat) {
    && k < |w.writes|
    && var x := w.writes[k];
       && w.installed == Some(x.machine) && Unannounced(x) && Settled(x) && x.candle.openTimeMs in w.store
       && w' == WithWrite(w, k, x.(stage := Notifying(w.subscribers, w.runId))).(
                  events := w.events + [Event(x.candle.openTimeMs, w.runId, x.machine)])
       && (forall l :: 0 <= l < |w.writes| && l != k && Open(w.writes[l]) ==> w.writes[l].machine != x.machine)
  }

  lemma {:induction false} CallbackAnnounces(w: World, k: nat)
    requires Safe(w) && CanTake(w, WriteCallback(k)) && CallbackResumes(w, k).writes[k].stage.Notifying?
    ensures Announcing(w, CallbackResumes(w, k), k)
  {
    var x := w.writes[k];
    assert WriteFits(w, x);
    hide Lineage, Ownership;
    forall l | 0 <= l < |w.writes| && l != k && w.writes[l].machine == x.machine ensures !Open(w.writes[l]) {
      AloneOnItsMachine(w, k, l);
    }
  }

  lemma {:induction false} AnnouncingKeepsCoverage(w: World, w': World, k: nat, base: map<int, Candle>)
    requires base.Keys != {} && Coverage(w, base) && Announcing(w, w', k)
    ensures Coverage(w', base)
  {
    hide Extends, Top;
    assert forall l :: 0 <= l < |w.writes| && l != k ==> w'.writes[l] == w.writes[l];
  }

  lemma {:induction false} AnnouncingKeepsPublication(w: World, w': World, k: nat, base: map<int, Candle>)
    requires base.Keys != {} && Publication(w, base) && Announcing(w, w', k)
    ensures Publication(w', base)
  {
    hide Top;
    assert forall l :: 0 <= l < |w.writes| && l != k ==> w'.writes[l] == w.writes[l];
  }

  lemma {:induction false} AnnouncingKeepsDeliveries(w: World, w': World, k: nat, base: map<int, Candle>)
    requires base.Keys != {} && Publication(w, base) && Delivered(w) && Announcing(w, w', k)
    ensures Delivered(w')
  {
    var t := w.writes[k].candle.openTimeMs;
    hide NoDuplicates, Top;
    SameAnnouncements(w, w');
    assert w'.events[|w.events|].openTimeMs == t && Announced(w', t);
    forall l | 0 <= l < |w'.writes| && w'.writes[l].stage.Notifying? ensures Dispatching(w', w'.writes[l]) {
      if l != k {
        assert Dispatching(w, w.writes[l]);
      } else {
        forall d | 0 <= d < |w.deliveries| ensures w.deliveries[d].openTimeMs != t {
          assert Announced(w, w.deliveries[d].openTimeMs);
        }
      }
    }
  }

  lemma {:induction false} CallbackMoves(w: World, k: nat)
    requires Safe(w) && CanTake(w, WriteCallback(k))
    ensures var w' := CallbackResumes(w, k);
            && |w'.writes| == |w.writes|
            && MovesOn(w, k, w') && WriteFits(w', w'.writes[k]) && w.events <= w'.events && w'.deliveries == w.deliveries
            && w'.store == w.store && (Unannounced(w'.writes[k]) ==> Unannounced(w.writes[k]))
            && (!w'.writes[k].stage.Notifying? ==> w'.events == w.events)
  {
    assert WriteFits(w, w.writes[k]);
    hide Ownership, Lineage;
  }

  lemma {:induction false} CallbackHolds(w: World, k: nat, base: map<int, Candle>, past: World)
    requires Holds(w, base, past) && CanTake(w, WriteCallback(k))
    ensures Holds(CallbackResumes(w, k), base, past)
  {
    hide Lineage, Barrier, Ownership, Continuous, MovesOn, WriteFits, CallbackResumes;
    var w' := CallbackResumes(w, k);
    CallbackMoves(w, k);
    MovingOnIsSafe(w, k, w');
    MovingAges(w, k, w', past);
    if base.Keys != {} {
      if w'.writes[k].stage.Notifying? {
        AnnouncingIsContinuous(w, k, base);
      } else {
        SilentMoveIsContinuous(w, k, w', base);
      }
    }
  }

  lemma {:induction false} DeliveringIsContinuous(w: World, k: nat, base: map<int, Candle>)
    requires Safe(w) && base.Keys != {} && Continuous(w, base) && CanTake(w, WriteDispatch(k))
    requires DispatchTurn(w, k).writes[k].stage.Notifying?
    ensures Continuous(DispatchTurn(w, k), base)
  {
    hide Extends, Top, Lineage, Barrier, Ownership, Delivered, MovesOn;
    DispatchTurnMoves(w, k);
    SameRowsAndEvents(w, DispatchTurn(w, k), k, base);
    DeliveringKeepsDeliveries(w, k);
  }

  /** A write moves on, and neither rows nor events are added. */
  lemma {:induction false} SameRowsAndEvents(w: World, w': World, k: nat, base: map<int, Candle>)
    requires base.Keys != {} && Coverage(w, base) && Publication(w, base) && k < |w.writes| && MovesOn(w, k, w')
    requires w'.store == w.store && w'.events == w.events && (Unannounced(w'.writes[k]) ==> Unannounced(w.writes[k]))
    ensures Coverage(w', base) && Publication(w', base)
  {
    hide Extends, Top;
    assert forall l :: 0 <= l < |w.writes| && l != k ==> w'.writes[l] == w.writes[l];
    assert Coverage(w', base) by {
      hide Publication;
    }
    assert Publication(w', base) by {
      hide Coverage;
    }
  }

  lemma {:induction false} DeliveringKeepsDeliveries(w: World, k: nat)
    requires Barrier(w) && Delivered(w) && k < |w.writes| && w.writes[k].stage.Notifying?
    requires DispatchTurn(w, k).writes[k].stage.Notifying?
    ensures Delivered(DispatchTurn(w, k))
  {
    var w' := DispatchTurn(w, k);
    var x := w.writes[k];
    var t := x.candle.openTimeMs;
    assert Dispatching(w, x);
    SameAnnouncements(w, w');
    forall d | 0 <= d < |w.deliveries| && w.deliveries[d].subscriber == x.stage.recipients[0]
      ensures w.deliveries[d].openTimeMs < t
    {
      assert Announced(w, w.deliveries[d].openTimeMs);
    }
    forall l | 0 <= l < |w'.writes| && w'.writes[l].stage.Notifying? ensures Dispatching(w', w'.writes[l]) {
      assert Dispatching(w, w.writes[l]);
      if l != k && w.writes[l].machine == x.machine {
        AloneOnItsMachine(w, k, l);
      }
    }
  }

  lemma {:induction false} DispatchTurnMoves(w: World, k: nat)
    requires Safe(w) && CanTake(w, WriteDispatch(k))
    ensures var w' := DispatchTurn(w, k);
            && |w'.writes| == |w.writes|
            && MovesOn(w, k, w') && WriteFits(w', w'.writes[k]) && w'.store == w.store && w'.events == w.events
            && w.deliveries <= w'.deliveries && (Unannounced(w'.writes[k]) ==> Unannounced(w.writes[k]))
            && (!w'.writes[k].stage.Notifying? ==> w'.deliveries == w.deliveries)
  {
    assert WriteFits(w, w.writes[k]);
    hide Ownership, Lineage;
  }

  lemma {:induction false} DispatchTurnHolds(w: World, k: nat, base: map<int, Candle>, past: World)
    requires Holds(w, base, past) && CanTake(w, WriteDispatch(k))
    ensures Holds(DispatchTurn(w, k), base, past)
  {
    hide Lineage, Barrier, Ownership, Continuous, MovesOn, WriteFits, DispatchTurn;
    var w' := DispatchTurn(w, k);
    DispatchTurnMoves(w, k);
    MovingOnIsSafe(w, k, w');
    MovingAges(w, k, w', past);
    if base.Keys != {} {
      if w'.writes[k].stage.Notifying? {
        DeliveringIsContinuous(w, k, base);
      } else {
        SilentMoveIsContinuous(w, k, w', base);
      }
    }
  }

  /** Any other move of a write. */
  lemma {:induction false} MoveHolds(w: World, k: nat, x: Write, base: map<int, Candle>, past: World)
    requires Holds(w, base, past) && k < |w.writes| && MovesOn(w, k, WithWrite(w, k, x)) && WriteFits(w, x)
    requires (Unannounced(x) ==> Unannounced(w.writes[k])) && !x.stage.Notifying?
    ensures Holds(WithWrite(w, k, x), base, past)
  {
    var w' := WithWrite(w, k, x);
    assert WriteFits(w', w'.writes[k]);
    MovingOnIsSafe(w, k, w');
    if base.Keys != {} {
      SilentMoveIsContinuous(w, k, w', base);
    }
  }

  lemma {:induction false} WriteStepHolds(w: World, s: Step, base: map<int, Candle>, past: World)
    requires Holds(w, base, past) && CanTake(w, s) && (s.WriteStarts? || s.WriteSettles?)
    ensures Holds(WithWrite(w, s.write, if s.WriteStarts? then w.writes[s.write].(stage := Running(false))
                                        else w.writes[s.write].(stage := Resolved, outcome := Some(s.outcome))), base, past)
  {
    var x := if s.WriteStarts? then w.writes[s.write].(stage := Running(false))
             else w.writes[s.write].(stage := Resolved, outcome := Some(s.outcome));
    assert WriteFits(w, w.writes[s.write]);
    hide Lineage, Ownership, Continuous;
    MoveHolds(w, s.write, x, base, past);
  }

  lemma {:induction false} AnswerMayReact(w: World, k: nat)
    requires Safe(w) && CanTake(w, CommitResumes(k))
    ensures var x := w.writes[k];
            var w1 := WithWrite(w, k, x.(stage := Consumed));
            && WellFormed(w1) && x.machine < |w1.machines| && MayReact(w1, x.machine, CommitAnswered(x.stage.ok))
            && MovesOn(w, k, w1) && WriteFits(w, w1.writes[k])
  {
    var x := w.writes[k];
    var w1 := WithWrite(w, k, x.(stage := Consumed));
    assert WriteFits(w, x);
    hide Lineage, Ownership;
    assert x.candle.openTimeMs == w1.machines[x.machine].machine.flight.value.candle.openTimeMs;
    assert x.outcome.Some? && (x.outcome.value == INSERTED || x.outcome.value == ALREADY_IDENTICAL || x.outcome.value == THROWN);
    forall l | 0 <= l < |w1.writes| && w1.writes[l].machine == x.machine ensures !Open(w1.writes[l]) {
      if l != k {
        AloneOnItsMachine(w, k, l);
      }
    }
  }

  lemma {:induction false} CommitResumesHolds(w: World, k: nat, cfg: Config, base: map<int, Candle>, past: World)
    requires Holds(w, base, past) && CanTake(w, CommitResumes(k))
    ensures var w1 := WithWrite(w, k, w.writes[k].(stage := Consumed));
            WellFormed(w1) && w.writes[k].machine < |w1.machines|
            && Holds(Touch(w1, w.writes[k].machine, CommitAnswered(w.writes[k].stage.ok), cfg), base, past)
  {
    var x := w.writes[k];
    var w1 := WithWrite(w, k, x.(stage := Consumed));
    AnswerMayReact(w, k);
    hide Holds, Touch, MayReact, MovesOn, WriteFits, WellFormed;
    MoveHolds(w, k, x.(stage := Consumed), base, past);
    TouchHolds(w1, x.machine, CommitAnswered(x.stage.ok), cfg, base, past);
  }

  // -------------------------------------------------------------- subscribers

  lemma {:induction false} WithoutKeeps(xs: seq<nat>, x: nat)
    requires NoDuplicates(xs)
    ensures NoDuplicates(Without(xs, x))
    ensures forall y :: y in Without(xs, x) ==> y in xs
  {
    if xs != [] {
      var front := xs[..|xs| - 1];
      assert NoDuplicates(front);
      WithoutKeeps(front, x);
      assert forall i :: 0 <= i < |Without(front, x)| ==> Without(front, x)[i] in front;
    }
  }

  lemma {:induction false} SubscribersHold(w: World, subscribers: seq<nat>, base: map<int, Candle>, past: World)
    requires Holds(w, base, past) && (base.Keys != {} ==> NoDuplicates(subscribers))
    ensures Holds(w.(subscribers := subscribers), base, past)
  {
    hide Safe, Continuous, NoDuplicates;
    SubscribersAreSafe(w, w.(subscribers := subscribers));
    if base.Keys != {} {
      SubscribersAreContinuous(w, subscribers, base);
    }
  }

  lemma {:induction false} SubscribersAreContinuous(w: World, subscribers: seq<nat>, base: map<int, Candle>)
    requires Safe(w) && base.Keys != {} && Continuous(w, base) && NoDuplicates(subscribers)
    ensures Continuous(w.(subscribers := subscribers), base)
  {
    var w' := w.(subscribers := subscribers);
    hide Safe, NoDuplicates, Extends;
    assert Coverage(w', base) && Publication(w', base);
    SameAnnouncements(w, w');
    forall l | 0 <= l < |w'.writes| && w'.writes[l].stage.Notifying? ensures Dispatching(w', w'.writes[l]) {
      assert Dispatching(w, w.writes[l]);
    }
  }

  lemma {:induction false} SubscribersAreSafe(w: World, w': World)
    requires Safe(w) && w' == w.(subscribers := w'.subscribers)
    ensures Safe(w')
  {
    hide Invariant, LatestStored, LastFailed;
    SameMachinesKeepLineage(w, w');
    hide Lineage;
    assert Barrier(w') by {
      forall k | 0 <= k < |w'.writes| ensures WriteFits(w', w'.writes[k]) {
        assert WriteFits(w, w.writes[k]);
      }
    }
    forall k | 0 <= k < |w'.attempts| && Live(w', w'.attempts[k]) ensures AttemptFits(w', w'.attempts[k].stage) {
      assert AttemptFits(w, w.attempts[k].stage);
    }
  }

  // ================================================================= runs

  ghost predicate Steps(w: World, s: Step, cfg: Config, w': World) {
    WellFormed(w) && CanTake(w, s) && w' == Take(w, s, cfg)
  }

  /** The step leads on, and keeps the invariant. */
  ghost predicate Kept(w: World, s: Step, cfg: Config, base: map<int, Candle>, past: World) {
    WellFormed(w) && CanTake(w, s) && Holds(Take(w, s, cfg), base, past)
  }

  lemma {:induction false} EnvelopeArrivesKeeps(w: World, g: int, required: bool, packet: Option<Envelope>, stops: bool, now: int, cfg: Config, base: map<int, Candle>, past: World)
    requires Holds(w, base, past) && CanTake(w, EnvelopeArrives(g, required, packet, stops, now))
    ensures Kept(w, EnvelopeArrives(g, required, packet, stops, now), cfg, base, past)
  {
    hide Holds, WellFormed;
    HoldingIsWellFormed(w, base, past);
    EnvelopeHolds(w, g, required, packet, stops, now, cfg, base, past);
  }

  lemma {:induction false} PairInitialisedKeeps(w: World, cfg: Config, base: map<int, Candle>, past: World)
    requires Holds(w, base, past) && CanTake(w, PairInitialised)
    ensures Kept(w, PairInitialised, cfg, base, past)
  {
    hide Holds, WellFormed;
    HoldingIsWellFormed(w, base, past);
    BeginHolds(w, base, past);
  }

  lemma {:induction false} BarrierPassedKeeps(w: World, k: nat, cfg: Config, base: map<int, Candle>, past: World)
    requires Holds(w, base, past) && CanTake(w, BarrierPassed(k))
    ensures Kept(w, BarrierPassed(k), cfg, base, past)
  {
    hide Holds, WellFormed;
    HoldingIsWellFormed(w, base, past);
    BarrierPassedHolds(w, k, base, past);
  }

  lemma {:induction false} BaselineFetchedKeeps(w: World, k: nat, ok: bool, cfg: Config, base: map<int, Candle>, past: World)
    requires Holds(w, base, past) && CanTake(w, BaselineFetched(k, ok))
    ensures Kept(w, BaselineFetched(k, ok), cfg, base, past)
  {
    hide Holds, WellFormed;
    HoldingIsWellFormed(w, base, past);
    BaselineFetchedHolds(w, k, ok, base, past);
  }

  lemma {:induction false} AttemptResumesKeeps(w: World, k: nat, now: int, cfg: Config, base: map<int, Candle>, past: World)
    requires Holds(w, base, past) && CanTake(w, AttemptResumes(k, now))
    ensures Kept(w, AttemptResumes(k, now), cfg, base, past)
  {
    hide Holds, WellFormed;
    HoldingIsWellFormed(w, base, past);
    InstallHolds(w, k, now, cfg, base, past);
  }

  lemma {:induction false} DispatchResumesKeeps(w: World, k: nat, now: int, cfg: Config, base: map<int, Candle>, past: World)
    requires Holds(w, base, past) && CanTake(w, DispatchResumes(k, now))
    ensures Kept(w, DispatchResumes(k, now), cfg, base, past)
  {
    hide Holds, WellFormed;
    HoldingIsWellFormed(w, base, past);
    ResumedDispatchHolds(w, k, now, cfg, base, past);
  }

  lemma {:induction false} TimerFiresKeeps(w: World, i: nat, id: nat, now: int, cfg: Config, base: map<int, Candle>, past: World)
    requires Holds(w, base, past) && CanTake(w, TimerFires(i, id, now))
    ensures Kept(w, TimerFires(i, id, now), cfg, base, past)
  {
    hide Holds, WellFormed;
    HoldingIsWellFormed(w, base, past);
    TouchHolds(w, i, GraceTimer(id, now), cfg, base, past);
  }

  lemma {:induction false} WriteStartsKeeps(w: World, k: nat, cfg: Config, base: map<int, Candle>, past: World)
    requires Holds(w, base, past) && CanTake(w, WriteStarts(k))
    ensures Kept(w, WriteStarts(k), cfg, base, past)
  {
    hide Holds, WellFormed;
    HoldingIsWellFormed(w, base, past);
    WriteStepHolds(w, WriteStarts(k), base, past);
  }

  lemma {:induction false} WriteLandsKeeps(w: World, k: nat, cfg: Config, base: map<int, Candle>, past: World)
    requires Holds(w, base, past) && CanTake(w, WriteLands(k))
    ensures Kept(w, WriteLands(k), cfg, base, past)
  {
    hide Holds, WellFormed;
    HoldingIsWellFormed(w, base, past);
    LandHolds(w, k, base, past);
  }

  lemma {:induction false} WriteSettlesKeeps(w: World, k: nat, outcome: Outcome, cfg: Config, base: map<int, Candle>, past: World)
    requires Holds(w, base, past) && CanTake(w, WriteSettles(k, outcome))
    ensures Kept(w, WriteSettles(k, outcome), cfg, base, past)
  {
    hide Holds, WellFormed;
    HoldingIsWellFormed(w, base, past);
    WriteStepHolds(w, WriteSettles(k, outcome), base, past);
  }

  lemma {:induction false} WriteCallbackKeeps(w: World, k: nat, cfg: Config, base: map<int, Candle>, past: World)
    requires Holds(w, base, past) && CanTake(w, WriteCallback(k))
    ensures Kept(w, WriteCallback(k), cfg, base, past)
  {
    hide Holds, WellFormed;
    HoldingIsWellFormed(w, base, past);
    CallbackHolds(w, k, base, past);
  }

  lemma {:induction false} WriteDispatchKeeps(w: World, k: nat, cfg: Config, base: map<int, Candle>, past: World)
    requires Holds(w, base, past) && CanTake(w, WriteDispatch(k))
    ensures Kept(w, WriteDispatch(k), cfg, base, past)
  {
    hide Holds, WellFormed;
    HoldingIsWellFormed(w, base, past);
    DispatchTurnHolds(w, k, base, past);
  }

  lemma {:induction false} CommitResumesKeeps(w: World, k: nat, cfg: Config, base: map<int, Candle>, past: World)
    requires Holds(w, base, past) && CanTake(w, CommitResumes(k))
    ensures Kept(w, CommitResumes(k), cfg, base, past)
  {
    hide Holds, WellFormed;
    HoldingIsWellFormed(w, base, past);
    CommitResumesHolds(w, k, cfg, base, past);
  }

  lemma {:induction false} CommitFinishesKeeps(w: World, i: nat, now: int, cfg: Config, base: map<int, Candle>, past: World)
    requires Holds(w, base, past) && CanTake(w, CommitFinishes(i, now))
    ensures Kept(w, CommitFinishes(i, now), cfg, base, past)
  {
    hide Holds, WellFormed;
    HoldingIsWellFormed(w, base, past);
    TouchHolds(w, i, CommitCleanup(now), cfg, base, past);
  }

  lemma {:induction false} RecoveryRequestedKeeps(w: World, fromMs: int, toMs: int, cfg: Config, base: map<int, Candle>, past: World)
    requires Holds(w, base, past) && CanTake(w, RecoveryRequested(fromMs, toMs))
    ensures Kept(w, RecoveryRequested(fromMs, toMs), cfg, base, past)
  {
    hide Holds, WellFormed;
    HoldingIsWellFormed(w, base, past);
    RequestedHolds(w, fromMs, toMs, cfg, base, past);
  }

  lemma {:induction false} RestRepliesKeeps(w: World, k: nat, reply: RestReply, now: int, cfg: Config, base: map<int, Candle>, past: World)
    requires Holds(w, base, past) && CanTake(w, RestReplies(k, reply, now))
    ensures Kept(w, RestReplies(k, reply, now), cfg, base, past)
  {
    hide Holds, WellFormed;
    HoldingIsWellFormed(w, base, past);
    RestAnsweredHolds(w, k, reply, now, cfg, base, past);
  }

  lemma {:induction false} RecoveryContinuesKeeps(w: World, k: nat, answer: ReadAnswer, now: int, cfg: Config, base: map<int, Candle>, past: World)
    requires Holds(w, base, past) && CanTake(w, RecoveryContinues(k, answer, now))
    ensures Kept(w, RecoveryContinues(k, answer, now), cfg, base, past)
  {
    hide Holds, WellFormed;
    HoldingIsWellFormed(w, base, past);
    ApplicationHolds(w, k, answer, now, cfg, base, past);
  }

  lemma {:induction false} HistoricalAnsweredKeeps(w: World, k: nat, answer: ReadAnswer, cfg: Config, base: map<int, Candle>, past: World)
    requires Holds(w, base, past) && CanTake(w, HistoricalAnswered(k, answer))
    ensures Kept(w, HistoricalAnswered(k, answer), cfg, base, past)
  {
    hide Holds, WellFormed;
    HoldingIsWellFormed(w, base, past);
    LookupHolds(w, k, answer, cfg, base, past);
  }

  lemma {:induction false} EngineStopsKeeps(w: World, cfg: Config, base: map<int, Candle>, past: World)
    requires Holds(w, base, past) && CanTake(w, EngineStops)
    ensures Kept(w, EngineStops, cfg, base, past)
  {
    hide Holds, WellFormed;
    HoldingIsWellFormed(w, base, past);
    StopHolds(w, cfg, base, past);
  }

  lemma {:induction false} EngineStartsKeeps(w: World, cfg: Config, base: map<int, Candle>, past: World)
    requires Holds(w, base, past) && CanTake(w, EngineStarts)
    ensures Kept(w, EngineStarts, cfg, base, past)
  {
    hide Holds, WellFormed;
    HoldingIsWellFormed(w, base, past);
    StartingHolds(w, base, past);
  }

  lemma {:induction false} SubscribedKeeps(w: World, id: nat, cfg: Config, base: map<int, Candle>, past: World)
    requires Holds(w, base, past) && CanTake(w, Subscribed(id))
    ensures Kept(w, Subscribed(id), cfg, base, past)
  {
    hide Holds, WellFormed;
    HoldingIsWellFormed(w, base, past);
    SubscriptionHolds(w, Subscribed(id), base, past);
  }

  lemma {:induction false} UnsubscribedKeeps(w: World, id: nat, cfg: Config, base: map<int, Candle>, past: World)
    requires Holds(w, base, past) && CanTake(w, Unsubscribed(id))
    ensures Kept(w, Unsubscribed(id), cfg, base, past)
  {
    hide Holds, WellFormed;
    HoldingIsWellFormed(w, base, past);
    SubscriptionHolds(w, Unsubscribed(id), base, past);
  }

  /** Every step keeps the invariant. */
  lemma {:induction false} StepHolds(w: World, s: Step, cfg: Config, base: map<int, Candle>, past: World)
    requires Holds(w, base, past) && CanTake(w, s)
    ensures WellFormed(w) && Holds(Take(w, s, cfg), base, past)
  {
    hide Holds, WellFormed, CanTake, Take;
    match s
    case EnvelopeArrives(g, required, packet, stops, now) => EnvelopeArrivesKeeps(w, g, required, packet, stops, now, cfg, base, past);
    case PairInitialised => PairInitialisedKeeps(w, cfg, base, past);
    case BarrierPassed(k) => BarrierPassedKeeps(w, k, cfg, base, past);
    case BaselineFetched(k, ok) => BaselineFetchedKeeps(w, k, ok, cfg, base, past);
    case AttemptResumes(k, now) => AttemptResumesKeeps(w, k, now, cfg, base, past);
    case DispatchResumes(k, now) => DispatchResumesKeeps(w, k, now, cfg, base, past);
    case TimerFires(i, id, now) => TimerFiresKeeps(w, i, id, now, cfg, base, past);
    case WriteStarts(k) => WriteStartsKeeps(w, k, cfg, base, past);
    case WriteLands(k) => WriteLandsKeeps(w, k, cfg, base, past);
    case WriteSettles(k, outcome) => WriteSettlesKeeps(w, k, outcome, cfg, base, past);
    case WriteCallback(k) => WriteCallbackKeeps(w, k, cfg, base, past);
    case WriteDispatch(k) => WriteDispatchKeeps(w, k, cfg, base, past);
    case CommitResumes(k) => CommitResumesKeeps(w, k, cfg, base, past);
    case CommitFinishes(i, now) => CommitFinishesKeeps(w, i, now, cfg, base, past);
    case RecoveryRequested(fromMs, toMs) => RecoveryRequestedKeeps(w, fromMs, toMs, cfg, base, past);
    case RestReplies(k, reply, now) => RestRepliesKeeps(w, k, reply, now, cfg, base, past);
    case RecoveryContinues(k, answer, now) => RecoveryContinuesKeeps(w, k, answer, now, cfg, base, past);
    case HistoricalAnswered(k, answer) => HistoricalAnsweredKeeps(w, k, answer, cfg, base, past);
    case EngineStops => EngineStopsKeeps(w, cfg, base, past);
    case EngineStarts => EngineStartsKeeps(w, cfg, base, past);
    case Subscribed(id) => SubscribedKeeps(w, id, cfg, base, past);
    case Unsubscribed(id) => UnsubscribedKeeps(w, id, cfg, base, past);
  }

  lemma {:induction false} StartingHolds(w: World, base: map<int, Candle>, past: World)
    requires Holds(w, base, past)
    ensures Holds(w.(isStopped := false), base, past)
  {
    hide Lineage, Barrier, Ownership, Continuous;
    InertHolds(w, w.(isStopped := false), base, past);
  }

  lemma {:induction false} SubscriptionHolds(w: World, s: Step, base: map<int, Candle>, past: World)
    requires Holds(w, base, past) && CanTake(w, s) && (s.Subscribed? || s.Unsubscribed?)
    ensures Holds(w.(subscribers := if s.Subscribed? then w.subscribers + [s.subscriber] else Without(w.subscribers, s.subscriber)), base, past)
  {
    var subscribers := if s.Subscribed? then w.subscribers + [s.subscriber] else Without(w.subscribers, s.subscriber);
    hide Holds;
    if base.Keys != {} {
      assert NoDuplicates(w.subscribers) by {
        assert Holds(w, base, past);
      }
      WithoutKeeps(w.subscribers, s.subscriber);
    }
    SubscribersHold(w, subscribers, base, past);
  }
}
