/** Theorems about whole runs of the canonical engine. */
module EngineTheorems {
  import opened Common
  import opened WorkingCandle
  import opened PairState
  import opened PairStateTheorems
  import opened Engine
  import opened EngineInvariants

  /** A run: any sequence of enabled steps from a fresh engine over the store `base`. */
  ghost predicate Behaviour(ws: seq<World>, pair: string, base: map<int, Candle>, cfg: Config) {
    && ws != [] && ws[0] == Start(pair, base)
    && forall i :: 0 <= i < |ws| - 1 ==> Leads(ws[i], ws[i + 1], cfg)
  }

  ghost predicate Leads(w: World, w': World, cfg: Config) {
    exists s :: Steps(w, s, cfg, w')
  }

  ghost predicate Reachable(w: World, pair: string, base: map<int, Candle>, cfg: Config) {
    exists ws :: Behaviour(ws, pair, base, cfg) && ws[|ws| - 1] == w
  }

  lemma {:induction false} StartHolds(pair: string, base: map<int, Candle>)
    ensures Holds(Start(pair, base), base, Start(pair, base))
  {
  }

  lemma {:induction false} RunHolds(ws: seq<World>, pair: string, base: map<int, Candle>, cfg: Config, i: nat, j: nat)
    requires Behaviour(ws, pair, base, cfg) && i <= j < |ws|
    ensures Holds(ws[j], base, ws[i])
    decreases j, i
  {
    StartHolds(pair, base);
    hide Holds, Steps;
    if i < j {
      RunHolds(ws, pair, base, cfg, i, j - 1);
      OneMore(ws[j - 1], ws[j], cfg, base, ws[i]);
    } else if j > 0 {
      RunHolds(ws, pair, base, cfg, i - 1, j);
      Afresh(ws[j], base, ws[i - 1]);
    }
  }

  lemma {:induction false} OneMore(w: World, w': World, cfg: Config, base: map<int, Candle>, past: World)
    requires Holds(w, base, past) && Leads(w, w', cfg)
    ensures Holds(w', base, past)
  {
    var s :| Steps(w, s, cfg, w');
    hide Holds, Take, CanTake;
    StepHolds(w, s, cfg, base, past);
  }

  lemma {:induction false} Afresh(w: World, base: map<int, Candle>, past: World)
    requires Holds(w, base, past)
    ensures Holds(w, base, w)
  {
    SinceSelf(w);
    hide Safe, Continuous, Since;
  }

  lemma {:induction false} ReachableHolds(w: World, pair: string, base: map<int, Candle>, cfg: Config)
    requires Reachable(w, pair, base, cfg)
    ensures Holds(w, base, w)
  {
    var ws :| Behaviour(ws, pair, base, cfg) && ws[|ws| - 1] == w;
    hide Holds;
    RunHolds(ws, pair, base, cfg, |ws| - 1, |ws| - 1);
  }

  // ------------------------------------------------------- physical writes

  /** In every run, from any store: the physical writes of the pair never overlap, they are
      executed in the order they were enqueued, and they settle in that order. */
  lemma {:induction false} WritesNeverOverlap(w: World, pair: string, base: map<int, Candle>, cfg: Config, k: nat, l: nat)
    requires Reachable(w, pair, base, cfg) && k < l < |w.writes|
    ensures w.writes[k].outcome.Some? && !w.writes[k].stage.Queued? && !w.writes[k].stage.Running?
  {
    ReachableHolds(w, pair, base, cfg);
    assert WriteFits(w, w.writes[k]);
  }

  /** At most one state machine per engine run, only the newest is in service, and every older one is stopped for good. */
  lemma {:induction false} OneMachinePerRun(w: World, pair: string, base: map<int, Candle>, cfg: Config, i: nat, j: nat)
    requires Reachable(w, pair, base, cfg) && i < j < |w.machines|
    ensures w.machines[i].runId < w.machines[j].runId <= w.runId
    ensures w.machines[i].machine.stopped
    ensures w.installed.Some? ==> w.installed.value == |w.machines| - 1 && w.machines[w.installed.value].runId == w.runId
  {
    ReachableHolds(w, pair, base, cfg);
    assert Descends(w, i) && Descends(w, j);
  }

  // --------------------------------------------------------- initialisation

  /** What a step that puts a new machine into service may rely on: every write ever enqueued
      for the pair has settled, the machine starts from the newest stored minute, and if the last
      write failed it starts with a latched persistence failure. */
  ghost predicate SoundInstall(w: World, w': World)
    requires |w'.machines| > 0
  {
    var i := |w'.machines| - 1;
    var m := w'.machines[i].machine;
    && w'.installed == Some(i) && w.installed.None? && |w'.machines| == |w.machines| + 1
    && AllSettled(w) && w'.writes == w.writes
    && m.latest == LatestStored(w.store)
    && (w.writes != [] && w.writes[|w.writes| - 1].outcome == Some(THROWN) ==> m.truthFault == PERSISTENCE_FAILURE)
    && (w.writes == [] || w.writes[|w.writes| - 1].outcome != Some(THROWN) ==> m.truthFault == NONE)
  }

  /** The reactions that may follow an installation at once change neither watermark nor fault, and start nothing. */
  lemma {:induction false} SettlingInKeeps(m: Machine, s: Stimulus, cfg: Config)
    requires s.Reconnected? || s.HandoffAwaited?
    ensures var r := React(m, s, cfg);
            && r.machine.latest == m.latest && r.machine.truthFault == m.truthFault && r.machine.flight == m.flight
            && r.effect.NoEffect?
  {
  }

  lemma {:induction false} SettlingInIsSound(w0: World, w: World, s: Stimulus, cfg: Config)
    requires WellFormed(w) && |w.machines| > 0 && SoundInstall(w0, w) && (s.Reconnected? || s.HandoffAwaited?)
    ensures SoundInstall(w0, Touch(w, |w.machines| - 1, s, cfg))
  {
    SettlingInKeeps(w.machines[|w.machines| - 1].machine, s, cfg);
    hide React, LatestStored;
  }

  lemma {:induction false} ReconcilingIsSound(w0: World, w: World, now: int, cfg: Config)
    requires WellFormed(w) && |w.machines| > 0 && SoundInstall(w0, w)
    ensures var w' := Reconciled(w, |w.machines| - 1, now, cfg); |w'.machines| > 0 && SoundInstall(w0, w')
  {
    var m := w.machines[|w.machines| - 1].machine;
    SettlingInIsSound(w0, w, HandoffAwaited(if m.latest.None? then NO_BASELINE else NOTHING_MISSING), cfg);
    hide Touch, LatestStored, WellFormed;
  }

  lemma {:induction false} InstalledIsSound(w: World, k: nat)
    requires Safe(w) && k < |w.attempts| && w.attempts[k].stage.BaselineRead? && Owns(w, w.attempts[k])
    ensures var w' := Installed(w, k); |w'.machines| == |w.machines| + 1 && WellFormed(w') && SoundInstall(w, w')
  {
    assert AttemptFits(w, w.attempts[k].stage);
    hide LatestStored, Lineage, Barrier, Ownership;
  }

  lemma {:induction false} FollowUpIsSound(w: World, k: nat, now: int, cfg: Config)
    requires Safe(w) && k < |w.attempts| && w.attempts[k].stage.BaselineRead? && Owns(w, w.attempts[k])
    ensures |Install(w, k, now, cfg).machines| > 0 && SoundInstall(w, Install(w, k, now, cfg))
  {
    assert WellFormed(w);
    InstalledIsSound(w, k);
    var w1 := Installed(w, k);
    hide Safe, SoundInstall, Installed, Touch, Reconciled, WellFormed;
    var generation := w.attempts[k].generationId;
    if generation.Some? {
      SettlingInIsSound(w, w1, Reconnected(generation.value), cfg);
      ReconcilingIsSound(w, Touch(w1, |w.machines|, Reconnected(generation.value), cfg), now, cfg);
    }
  }

  lemma {:induction false} InstallIsSound(w: World, k: nat, now: int, cfg: Config, pair: string, base: map<int, Candle>)
    requires Reachable(w, pair, base, cfg) && CanTake(w, AttemptResumes(k, now))
    ensures WellFormed(w) && Take(w, AttemptResumes(k, now), cfg) == Install(w, k, now, cfg)
    ensures Owns(w, w.attempts[k]) ==>
              |Install(w, k, now, cfg).machines| > 0 && SoundInstall(w, Install(w, k, now, cfg))
    ensures !Owns(w, w.attempts[k]) ==>
              Install(w, k, now, cfg).machines == w.machines && Install(w, k, now, cfg).installed == w.installed
  {
    ReachableHolds(w, pair, base, cfg);
    assert WellFormed(w);
    if Owns(w, w.attempts[k]) {
      FollowUpIsSound(w, k, now, cfg);
      hide Install, Holds, WellFormed, SoundInstall;
    } else {
      hide Holds, WellFormed, SoundInstall;
    }
  }

  // --------------------------------------------------------------- the store

  /** Every row above the baseline follows a stored predecessor; without a baseline the first row needs none. */
  ghost predicate HoleFree(store: map<int, Candle>, base: map<int, Candle>) {
    forall t <- store.Keys :: t in base || Follows(store, t) || (base.Keys == {} && IsLeast(store.Keys, t))
  }

  ghost predicate Follows(store: map<int, Candle>, t: int) {
    t - MINUTE_MS in store
  }

  lemma {:induction false} ExtensionIsHoleFree(store: map<int, Candle>, base: map<int, Candle>)
    requires base.Keys != {} && Extends(store, base)
    ensures HoleFree(store, base)
  {
    OnGridFrom(store, base);
    var low, high := Top(base), Top(store);
    forall t <- store.Keys | t !in base ensures Follows(store, t) {
      assert OnGrid(t, low, high);
      if t - MINUTE_MS > low {
        assert OnGrid(t - MINUTE_MS, low, high);
      } else {
        Multiple(t - low);
      }
    }
  }

  lemma {:induction false} Multiple(d: int)
    requires 0 < d <= MINUTE_MS && d % MINUTE_MS == 0
    ensures d == MINUTE_MS
  {
  }

  /** In every run from a store with a baseline: baseline rows are never changed, new rows extend
      it minute by minute, and whatever write is under way is for the newest minute or the next. */
  lemma {:induction false} StoreExtendsBaseline(w: World, pair: string, base: map<int, Candle>, cfg: Config)
    requires base.Keys != {} && Reachable(w, pair, base, cfg)
    ensures forall t <- base :: t in w.store && w.store[t] == base[t]
    ensures w.store.Keys != {} && Top(base) <= Top(w.store)
    ensures forall t :: t in w.store <==> t in base || OnGrid(t, Top(base), Top(w.store))
    ensures HoleFree(w.store, base)
    ensures forall k :: 0 <= k < |w.writes| && w.writes[k].outcome.None? ==>
              w.writes[k].candle.openTimeMs == Top(w.store) || w.writes[k].candle.openTimeMs == Top(w.store) + MINUTE_MS
    ensures w.installed.Some? ==>
              (w.installed.value < |w.machines| &&
               var latest := w.machines[w.installed.value].machine.latest;
               latest.Some? && (Top(w.store) == latest.value || Top(w.store) == latest.value + MINUTE_MS))
  {
    ReachableHolds(w, pair, base, cfg);
    ExtensionIsHoleFree(w.store, base);
    TopAbove(w.store, base);
    hide Top, Lineage, Barrier, Ownership, Publication, Delivered, Since, HoleFree;
  }

  // ------------------------------------------------------------ publication

  /** In every run from a store with a baseline, over all engine runs together: a minute is announced
      at most once, minutes are announced in ascending order, and only stored minutes above the baseline are. */
  lemma {:induction false} EventsAscend(w: World, pair: string, base: map<int, Candle>, cfg: Config, i: nat, j: nat)
    requires base.Keys != {} && Reachable(w, pair, base, cfg) && i <= j < |w.events|
    ensures i < j ==> w.events[i].openTimeMs < w.events[j].openTimeMs
    ensures w.events[i].openTimeMs in w.store && w.events[i].openTimeMs > Top(base)
  {
    ReachableHolds(w, pair, base, cfg);
    hide Top, Lineage, Barrier, Ownership, Coverage, Delivered, Since;
  }

  /** No subscriber is handed an event after its run has ended, and each sees every minute at most once, in ascending order. */
  lemma {:induction false} DeliveriesAscend(w: World, pair: string, base: map<int, Candle>, cfg: Config, d: nat, e: nat)
    requires base.Keys != {} && Reachable(w, pair, base, cfg) && d <= e < |w.deliveries|
    ensures w.deliveries[d].eventRun == w.deliveries[d].runAtDelivery
    ensures d < e && w.deliveries[d].subscriber == w.deliveries[e].subscriber ==>
              w.deliveries[d].openTimeMs < w.deliveries[e].openTimeMs
    ensures exists i :: 0 <= i < |w.events| && w.events[i].openTimeMs == w.deliveries[d].openTimeMs
  {
    ReachableHolds(w, pair, base, cfg);
    assert Announced(w, w.deliveries[d].openTimeMs);
    hide Top, Lineage, Barrier, Ownership, Coverage, Publication, Since;
  }

  /** An event is emitted only by the machine in service, in its own run, for a row its own write inserted,
      while its commit's token is not invalidated. */
  lemma {:induction false} EmissionIsOwned(w: World, s: Step, cfg: Config, pair: string, base: map<int, Candle>)
    requires Reachable(w, pair, base, cfg) && CanTake(w, s)
    ensures WellFormed(w)
    ensures var w' := Take(w, s, cfg);
            && w.events <= w'.events && |w'.events| <= |w.events| + 1
            && (|w'.events| > |w.events| ==>
                  && s.WriteCallback? && s.write < |w.writes|
                  && var x := w.writes[s.write];
                     var e := w'.events[|w.events|];
                     && e == Event(x.candle.openTimeMs, w.runId, x.machine)
                     && w.installed == Some(x.machine) && x.machine < |w.machines| && w.machines[x.machine].runId == w.runId
                     && x.outcome == Some(INSERTED) && x.candle.openTimeMs in w.store
                     && x.candidate.token.canonicalEpoch == w.machines[x.machine].machine.canonicalEpoch
                     && (x.candidate.origin == REST_RECOVERY ==>
                           x.candidate.token.recoveryEpoch == w.machines[x.machine].machine.recoveryEpoch))
  {
    hide Holds, Reachable, Safe, WellFormed;
    ReachableHolds(w, pair, base, cfg);
    HoldingIsWellFormed(w, base, w);
    if s.WriteCallback? {
      HoldingFits(w, s.write, base);
      hide CallbackResumes;
      CallbackIsOwned(w, s.write);
    } else {
      EventsOnlyFromCallbacks(w, s, cfg);
    }
  }

  lemma {:induction false} HoldingFits(w: World, k: nat, base: map<int, Candle>)
    requires Holds(w, base, w) && k < |w.writes|
    ensures WriteFits(w, w.writes[k])
  {
    hide Lineage, Ownership, Continuous, Since;
  }

  lemma {:induction false} CallbackIsOwned(w: World, k: nat)
    requires WellFormed(w) && CanTake(w, WriteCallback(k)) && WriteFits(w, w.writes[k])
    ensures var w', x := CallbackResumes(w, k), w.writes[k];
            && (w'.events == w.events ||
                (&& w'.events == w.events + [Event(x.candle.openTimeMs, w.runId, x.machine)]
                 && w.installed == Some(x.machine) && x.machine < |w.machines| && w.machines[x.machine].runId == w.runId
                 && x.outcome == Some(INSERTED) && x.candle.openTimeMs in w.store
                 && x.candidate.token.canonicalEpoch == w.machines[x.machine].machine.canonicalEpoch
                 && (x.candidate.origin == REST_RECOVERY ==>
                       x.candidate.token.recoveryEpoch == w.machines[x.machine].machine.recoveryEpoch)))
  {
  }

  lemma {:induction false} EventsOnlyFromCallbacks(w: World, s: Step, cfg: Config)
    requires WellFormed(w) && CanTake(w, s) && !s.WriteCallback?
    ensures Take(w, s, cfg).events == w.events
  {
    hide WellFormed, EnvelopeHandled, BeginAttempt, Install, ResumeDispatch, Touch,
      RestAnswered, ApplicationResumes, RequestRecoveryNow, Without, LatestStored, LastFailed, SettledUpTo, Enabled;
    if s.PairInitialised? {
      BeginningPublishesNothing(w);
    }
  }

  lemma {:induction false} BeginningPublishesNothing(w: World)
    ensures BeginAttempt(w).events == w.events
  {
  }

  // ------------------------------------------------------ two points of a run

  /** Between any two points of a run rows are never changed or removed, announcements and deliveries are
      never withdrawn, every watermark advances by whole minutes, and an absorbing fault is never lost. */
  lemma {:induction false} NothingIsTakenBack(ws: seq<World>, pair: string, base: map<int, Candle>, cfg: Config, i: nat, j: nat)
    requires Behaviour(ws, pair, base, cfg) && i <= j < |ws|
    ensures forall t <- ws[i].store :: t in ws[j].store && ws[j].store[t] == ws[i].store[t]
    ensures ws[i].events <= ws[j].events && ws[i].deliveries <= ws[j].deliveries
    ensures |ws[i].machines| <= |ws[j].machines|
    ensures forall n :: 0 <= n < |ws[i].machines| ==>
              Ages(ws[i].machines[n].machine, ws[j].machines[n].machine)
  {
    hide Behaviour, Safe, Continuous, Ages;
    RunHolds(ws, pair, base, cfg, i, j);
  }

  /** From the moment a machine is stopped or has an absorbing fault, it hands no further write to the store, ever. */
  lemma {:induction false} FaultedMachinesWriteNothing(ws: seq<World>, pair: string, base: map<int, Candle>, cfg: Config, i: nat, j: nat, n: nat, k: nat)
    requires Behaviour(ws, pair, base, cfg) && i <= j < |ws|
    requires n < |ws[i].machines| && k < |ws[j].writes| && ws[j].writes[k].machine == n
    requires Absorbing(ws[i].machines[n].machine.truthFault) || ws[i].machines[n].machine.stopped
    ensures k < |ws[i].writes| && ws[i].writes[k].machine == n && ws[i].writes[k].candle == ws[j].writes[k].candle
  {
    hide Behaviour, Safe, Continuous, Ages;
    RunHolds(ws, pair, base, cfg, i, j);
  }
}
