/** What each step of the engine does, in terms of runs, generations, revisions, attempts, writes and the store: who owns an
    initialization and what it installs, what an envelope brings about, which recoveries are carried out and with what, when a
    stored row is announced, and to whom. */
module EngineOutcomes {
  import opened Common
  import opened WorkingCandle
  import opened PairState
  import opened PairStateTheorems
  import opened Engine

  // ------------------------------------------------------- a machine is moved

  /** The only ways in which moving machine `i` to `m` shows in the world: the machine itself, and, if `m` has just handed a
      candle over, a write that waits behind all others. */
  lemma {:induction false} AbsorbingIsExact(w: World, i: nat, m: Machine)
    requires i < |w.machines|
    ensures var before := w.machines[i].machine;
            var hands := m.flight.Some? && m.flight.value.Persisting? && !(before.flight.Some? && before.flight.value.Persisting?);
            Absorb(w, i, m) ==
            w.(machines := w.machines[i := Instance(w.machines[i].runId, m)],
               writes := if hands then w.writes + [Write(i, m.flight.value.candidate, m.flight.value.candle, None, Queued)] else w.writes)
  {
  }

  /** A recovery is begun exactly for the machine in service of a running engine, and for its current recovery epoch. */
  lemma {:induction false} RecoveringIsExact(w: World, fromMs: int, toMs: int, epoch: int)
    requires w.installed.Some? ==> w.installed.value < |w.machines|
    ensures ExecuteRecovery(w, fromMs, toMs, epoch) ==
            if !w.isStopped && w.installed.Some? && w.machines[w.installed.value].machine.recoveryEpoch == epoch
            then w.(recoveries := w.recoveries + [Recovery(w.installed.value, w.runId, epoch, fromMs, toMs, Fetching)])
            else w
  {
  }

  /** What a reaction asks for is done: a recovery is begun if it may be, or the stored candle is looked up. */
  lemma {:induction false} TouchIsExact(w: World, i: nat, s: Stimulus, cfg: Config)
    requires WellFormed(w) && i < |w.machines|
    ensures var r := React(w.machines[i].machine, s, cfg);
            var w1 := Absorb(w, i, r.machine);
            Touch(w, i, s, cfg) ==
            match r.effect
            case NoEffect => w1
            case RequestRecovery(fromMs, toMs, epoch) => ExecuteRecovery(w1, fromMs, toMs, epoch)
            case VerifyHistorical(late, token) => w1.(lookups := w.lookups + [Lookup(i, late, token)])
  {
    hide React, ExecuteRecovery;
  }

  // ---------------------------------------------------------- initialization

  /** Nothing has superseded the initialization: no stop, no new generation or barrier, and no later attempt. */
  predicate StillOwner(w: World, a: Attempt) {
    && a.runId == w.runId && a.streamRevision == w.streamRevision && a.generationId == w.streamGeneration && a.pairRevision == w.pairRevision
  }

  /** An attempt that a newcomer joins instead of beginning its own. */
  predicate Joinable(w: World, a: Attempt) {
    a.stage != Over && a.runId == w.runId && a.streamRevision == w.streamRevision && a.pairRevision == w.pairRevision
  }

  /** A new attempt begins exactly if no machine is in service and none can be joined; it will wait for all writes so far. */
  lemma {:induction false} BeginningIsExact(w: World)
    ensures BeginAttempt(w) ==
            if w.installed.Some? || exists k :: 0 <= k < |w.attempts| && Joinable(w, w.attempts[k]) then w
            else
              w.(pairRevision := w.pairRevision + 1,
                 attempts := w.attempts + [Attempt(w.runId, w.streamRevision, w.streamGeneration, w.pairRevision + 1, AwaitingBarrier(|w.writes|))])
  {
    assert forall k :: 0 <= k < |w.attempts| ==> (Joinable(w, w.attempts[k]) <==> Tracked(w, w.attempts[k]));
  }

  /** Past the barrier: only an owner goes on, and remembers whether the last write before it failed. */
  lemma {:induction false} BarrierIsExact(w: World, k: nat, cfg: Config)
    requires WellFormed(w)
    ensures CanTake(w, BarrierPassed(k)) <==>
              && k < |w.attempts| && w.attempts[k].stage.AwaitingBarrier? && w.attempts[k].stage.tail <= |w.writes|
              && (w.attempts[k].stage.tail > 0 ==> w.writes[w.attempts[k].stage.tail - 1].outcome.Some?)
    ensures CanTake(w, BarrierPassed(k)) ==>
              var a := w.attempts[k];
              var failed := a.stage.tail > 0 && w.writes[a.stage.tail - 1].outcome == Some(THROWN);
              Take(w, BarrierPassed(k), cfg) ==
              w.(attempts := w.attempts[k := a.(stage := if StillOwner(w, a) then Reading(failed) else Over)])
  {
  }

  /** The baseline that is read is the newest row of the store. */
  lemma {:induction false} BaselineIsExact(w: World, k: nat, ok: bool, cfg: Config)
    requires WellFormed(w) && CanTake(w, BaselineFetched(k, ok))
    ensures var w' := Take(w, BaselineFetched(k, ok), cfg);
            var stage := w'.attempts[k].stage;
            && |w'.attempts| == |w.attempts| && w' == w.(attempts := w.attempts[k := w.attempts[k].(stage := stage)])
            && (!ok ==> stage == Over)
            && (ok ==> stage.BaselineRead? && stage.failed == w.attempts[k].stage.failed
                       && (stage.baseline.None? <==> forall t :: t !in w.store)
                       && (stage.baseline.Some? ==> stage.baseline.value in w.store && forall t <- w.store :: t <= stage.baseline.value))
  {
    assert (forall t :: t !in w.store) ==> w.store.Keys <= {};
    hide Greatest;
  }

  /** The machine that a finished initialization puts into service: it starts at the baseline, in the attempt's generation, and
      recovering from a fault exactly if the last write before it failed. */
  predicate FreshMachine(m: Machine, pair: string, a: Attempt)
    requires a.stage.BaselineRead?
  {
    && m == NewMachine(pair, a.stage.baseline).(truthFault := m.truthFault, recoveryActive := m.recoveryActive, generationId := a.generationId)
    && m.truthFault == (if a.stage.failed then PERSISTENCE_FAILURE else NONE) && m.recoveryActive == a.stage.failed
  }

  /** An attempt whose baseline has been read installs a machine exactly if it is still the owner; if its generation came with a
      barrier, the machine meets the barrier at once. */
  lemma {:induction false} InstallingIsExact(w: World, k: nat, now: int, cfg: Config) returns (m: Machine)
    requires WellFormed(w) && CanTake(w, AttemptResumes(k, now))
    ensures FreshMachine(m, w.pair, w.attempts[k])
    ensures var a := w.attempts[k];
            var over := w.(attempts := w.attempts[k := a.(stage := Over)]);
            var serving := over.(machines := w.machines + [Instance(w.runId, m)], installed := Some(|w.machines|));
            WellFormed(serving) &&
            Take(w, AttemptResumes(k, now), cfg) ==
            if !StillOwner(w, a) then over
            else if a.generationId.Some? && w.reconnectGeneration == a.generationId
            then Reconciled(Touch(serving, |w.machines|, Reconnected(a.generationId.value), cfg), |w.machines|, now, cfg)
            else serving
  {
    hide Touch, Reconciled;
    var a := w.attempts[k];
    m := Constructed(w, a.stage.failed, a.stage.baseline).(generationId := a.generationId);
    var serving := w.(attempts := w.attempts[k := a.(stage := Over)], machines := w.machines + [Instance(w.runId, m)], installed := Some(|w.machines|));
    assert WellFormed(serving);
  }

  /** After a barrier: what is owed up to the last closed minute is recovered; if nothing is, the machine waits for the forming
      minute. */
  lemma {:induction false} ReconcilingIsExact(w: World, i: nat, now: int, cfg: Config)
    requires WellFormed(w) && i < |w.machines|
    ensures var m := w.machines[i].machine;
            var lastClosed := now - now % MINUTE_MS - MINUTE_MS;
            Reconciled(w, i, now, cfg) ==
            if m.reconnectRecoveryFromMs.Some? && m.reconnectRecoveryFromMs.value <= lastClosed
            then ExecuteRecovery(w, m.reconnectRecoveryFromMs.value, lastClosed, m.recoveryEpoch)
            else Touch(w, i, HandoffAwaited(if m.latest.None? then NO_BASELINE else NOTHING_MISSING), cfg)
  {
    hide Touch, ExecuteRecovery;
    assert now / MINUTE_MS * MINUTE_MS == now - now % MINUTE_MS;
  }

  // ----------------------------------------------------------------- envelopes

  /** The generation has never been seen, or is newer than all that have. */
  predicate Newer(w: World, g: int) {
    w.streamGeneration.Some? ==> g > w.streamGeneration.value
  }

  /** An envelope is dropped by a stopped engine, and if its generation is older or no generation at all. */
  predicate Refused(w: World, g: int) {
    w.isStopped || g < 1 || !SafeInteger(g) || (w.streamGeneration.Some? && g < w.streamGeneration.value)
  }

  /** It raises a barrier if it says so or its generation replaces another, once for each generation. */
  predicate NeedsBarrier(w: World, g: int, recoveryRequired: bool) {
    (recoveryRequired || (w.streamGeneration.Some? && g > w.streamGeneration.value)) && w.reconnectGeneration != Some(g)
  }

  /** A newer generation and a barrier are noted, and each supersedes the initializations in progress. */
  predicate Noted(w: World, w': World, g: int, barrier: bool) {
    w' == w.(streamGeneration := if Newer(w, g) then Some(g) else w.streamGeneration,
             streamRevision := if Newer(w, g) || barrier then w.streamRevision + 1 else w.streamRevision,
             reconnectGeneration := if barrier then Some(g) else w.reconnectGeneration)
  }

  /** Every envelope: its generation is noted, the machine in service meets a barrier if there is one and is reconciled unless
      the engine is stopped by its event, and a packet goes to that machine or, if there is none, waits for one. */
  lemma {:induction false} EnvelopeIsExact(w: World, g: int, recoveryRequired: bool, packet: Option<Envelope>, stops: bool, now: int, cfg: Config)
    returns (noted: World, observed: World)
    requires WellFormed(w) && !Refused(w, g)
    ensures Noted(w, noted, g, NeedsBarrier(w, g, recoveryRequired)) && WellFormed(noted) && WellFormed(observed)
    ensures observed ==
            if !NeedsBarrier(w, g, recoveryRequired) || w.installed.None? then noted
            else
              var met := Touch(noted, w.installed.value, Reconnected(g), cfg);
              if stops then StopEngine(met, cfg) else Reconciled(met, w.installed.value, now, cfg)
    ensures EnvelopeHandled(w, g, recoveryRequired, packet, stops, now, cfg) ==
            if packet.None? || observed.runId != w.runId then observed
            else if observed.installed.Some? then Touch(observed, observed.installed.value, Packet(packet.value, now), cfg)
            else
              var begun := BeginAttempt(observed);
              begun.(dispatches := observed.dispatches + [Dispatch(observed.runId, packet.value.generationId, observed.streamRevision, packet.value)])
  {
    hide Touch, Reconciled, StopEngine, BeginAttempt, SafeInteger;
    noted := Retuned(w, g, NeedsBarrier(w, g, recoveryRequired));
    observed := ObserveGeneration(w, g, recoveryRequired, stops, now, cfg).value;
  }

  lemma {:induction false} RefusedChangesNothing(w: World, g: int, recoveryRequired: bool, packet: Option<Envelope>, stops: bool, now: int, cfg: Config)
    requires WellFormed(w) && Refused(w, g)
    ensures EnvelopeHandled(w, g, recoveryRequired, packet, stops, now, cfg) == w
  {
    hide RaiseBarrier, DispatchPacket, SafeInteger;
  }

  /** A packet that waited is handed over exactly if there is a machine now and neither run, generation nor revision has changed
      since. */
  lemma {:induction false} WaitingPacketIsExact(w: World, k: nat, now: int, cfg: Config)
    requires WellFormed(w) && k < |w.dispatches|
    ensures var d := w.dispatches[k];
            var rest := w.(dispatches := w.dispatches[..k] + w.dispatches[k + 1..]);
            WellFormed(rest) &&
            ResumeDispatch(w, k, now, cfg) ==
            if w.installed.Some? && d.runId == w.runId && w.streamGeneration == Some(d.generationId) && d.streamRevision == w.streamRevision
            then Touch(rest, w.installed.value, Packet(d.envelope, now), cfg)
            else rest
  {
    hide Touch;
    assert WellFormed(w.(dispatches := w.dispatches[..k] + w.dispatches[k + 1..]));
  }

  /** A stop ends the run: its machine is stopped and out of service, its generations are forgotten, its initializations are
      superseded and its subscribers are gone. */
  lemma {:induction false} StoppingIsExact(w: World, cfg: Config)
    requires w.installed.Some? ==> w.installed.value < |w.machines|
    ensures StopEngine(w, cfg) ==
            if w.isStopped then w
            else
              w.(isStopped := true, runId := w.runId + 1, streamGeneration := None, reconnectGeneration := None, streamRevision := w.streamRevision + 1,
                 installed := None, subscribers := [],
                 machines := if w.installed.None? then w.machines
                             else w.machines[w.installed.value := Instance(w.machines[w.installed.value].runId,
                                                                           PairState.Stop(w.machines[w.installed.value].machine))])
  {
  }

  // ---------------------------------------------------------------- recoveries

  /** The last record of each minute counts. */
  predicate LastOf(records: seq<Candle>, t: int, c: Candle) {
    exists i :: 0 <= i < |records| && records[i] == c && c.openTimeMs == t && forall j :: i < j < |records| ==> records[j].openTimeMs != t
  }

  lemma {:induction false} CoverageIsExact(records: seq<Candle>)
    ensures forall t :: t in CoverageMap(records) <==> exists i :: 0 <= i < |records| && records[i].openTimeMs == t
    ensures forall t <- CoverageMap(records) :: LastOf(records, t, CoverageMap(records)[t])
  {
    if records != [] {
      var front, last := records[..|records| - 1], records[|records| - 1];
      CoverageIsExact(front);
      forall t | t in CoverageMap(records) ensures LastOf(records, t, CoverageMap(records)[t]) {
        CoveredLast(records, t);
      }
      forall t ensures t in CoverageMap(records) <==> exists i :: 0 <= i < |records| && records[i].openTimeMs == t {
        if t in CoverageMap(front) {
          var i :| 0 <= i < |front| && front[i].openTimeMs == t;
          assert records[i].openTimeMs == t;
        }
        if i :| 0 <= i < |records| && records[i].openTimeMs == t {
          if i < |front| {
            assert front[i].openTimeMs == t;
          }
        }
      }
    }
  }

  lemma {:induction false} CoveredLast(records: seq<Candle>, t: int)
    requires records != [] && t in CoverageMap(records)
    requires var front := records[..|records| - 1]; t in CoverageMap(front) ==> LastOf(front, t, CoverageMap(front)[t])
    ensures LastOf(records, t, CoverageMap(records)[t])
  {
    var front, last := records[..|records| - 1], records[|records| - 1];
    if last.openTimeMs == t {
      assert records[|records| - 1] == CoverageMap(records)[t];
    } else {
      var c := CoverageMap(front)[t];
      var i :| 0 <= i < |front| && front[i] == c && c.openTimeMs == t && forall j :: i < j < |front| ==> front[j].openTimeMs != t;
      assert records[i] == c;
      forall j | i < j < |records| ensures records[j].openTimeMs != t {
        if j < |front| {
          assert records[j] == front[j];
        }
      }
    }
  }

  /** A record that can become a final candle of its minute. */
  predicate Usable(c: Candle, t: int, now: int) {
    c.pair != "" && CandleConstructible(t, c.values, now)
  }

  /** All minutes from `t` to `toMs` have a usable record. */
  ghost predicate Covered(coverage: map<int, Candle>, t: int, toMs: int, now: int) {
    forall k: nat :: t + k * MINUTE_MS <= toMs ==> t + k * MINUTE_MS in coverage && Usable(coverage[t + k * MINUTE_MS], t + k * MINUTE_MS, now)
  }

  /** A recovered batch has one record for every minute of its range, in order, or there is none. */
  lemma {:induction false} BatchIsExact(coverage: map<int, Candle>, t: int, toMs: int, now: int)
    ensures Batch(coverage, t, toMs, now).Some? <==> Covered(coverage, t, toMs, now)
    ensures Batch(coverage, t, toMs, now).Some? ==>
              var batch := Batch(coverage, t, toMs, now).value;
              && (forall k :: 0 <= k < |batch| ==> t + k * MINUTE_MS <= toMs && t + k * MINUTE_MS in coverage && batch[k] == coverage[t + k * MINUTE_MS])
              && t + |batch| * MINUTE_MS > toMs
    decreases toMs - t
  {
    hide CandleConstructible;
    if t <= toMs {
      BatchIsExact(coverage, t + MINUTE_MS, toMs, now);
      NextCovered(coverage, t, toMs, now);
      hide Covered;
      if Batch(coverage, t, toMs, now).Some? {
        var batch, rest := Batch(coverage, t, toMs, now).value, Batch(coverage, t + MINUTE_MS, toMs, now).value;
        assert batch == [coverage[t]] + rest;
        hide Batch;
        forall k | 0 <= k < |batch|
          ensures t + k * MINUTE_MS <= toMs && t + k * MINUTE_MS in coverage && batch[k] == coverage[t + k * MINUTE_MS] {
          if k > 0 {
            assert t + MINUTE_MS + (k - 1) * MINUTE_MS == t + k * MINUTE_MS && batch[k] == rest[k - 1];
          }
        }
      }
    }
  }

  lemma {:induction false} NextCovered(coverage: map<int, Candle>, t: int, toMs: int, now: int)
    requires t <= toMs
    ensures Covered(coverage, t, toMs, now) <==>
              t in coverage && Usable(coverage[t], t, now) && Covered(coverage, t + MINUTE_MS, toMs, now)
  {
    hide Usable;
    if Covered(coverage, t, toMs, now) {
      assert t + 0 * MINUTE_MS in coverage;
      forall k: nat | t + MINUTE_MS + k * MINUTE_MS <= toMs
        ensures t + MINUTE_MS + k * MINUTE_MS in coverage
                && Usable(coverage[t + MINUTE_MS + k * MINUTE_MS], t + MINUTE_MS + k * MINUTE_MS, now) {
        assert t + (k + 1) * MINUTE_MS == t + MINUTE_MS + k * MINUTE_MS;
      }
    }
    if t in coverage && Usable(coverage[t], t, now) && Covered(coverage, t + MINUTE_MS, toMs, now) {
      forall k: nat | t + k * MINUTE_MS <= toMs
        ensures t + k * MINUTE_MS in coverage && Usable(coverage[t + k * MINUTE_MS], t + k * MINUTE_MS, now) {
        if k > 0 {
          assert t + MINUTE_MS + (k - 1) * MINUTE_MS == t + k * MINUTE_MS;
        }
      }
    }
  }

  /** The recovery still speaks for the machine in service: same run, same machine, same recovery epoch. */
  predicate Speaks(w: World, r: Recovery) {
    && r.machine < |w.machines| && r.runId == w.runId && w.installed == Some(r.machine)
    && w.machines[r.machine].machine.recoveryEpoch == r.epoch
  }

  function Closing(w: World, k: nat): World
    requires k < |w.recoveries|
  {
    w.(recoveries := w.recoveries[k := w.recoveries[k].(progress := Closed)])
  }

  /** A recovery that fails leaves its machine incomplete if it still speaks for it, and changes nothing else. */
  lemma {:induction false} FailingIsExact(w: World, k: nat, cfg: Config)
    requires WellFormed(w) && k < |w.recoveries|
    ensures WellFormed(Closing(w, k))
    ensures var r := w.recoveries[k];
            GiveUp(w, k, cfg) ==
            if Speaks(w, r) then Touch(Closing(w, k), r.machine, RecoveryFaulted(RECOVERY_INCOMPLETE, r.epoch), cfg) else Closing(w, k)
  {
    hide Touch;
    assert WellFormed(Closing(w, k));
  }

  /** The reply of REST: unless the recovery still speaks it is ignored; a failure, or a range that is not covered, fails it; a
      batch is applied. */
  lemma {:induction false} ReplyIsExact(w: World, k: nat, reply: RestReply, now: int, cfg: Config)
    requires WellFormed(w) && k < |w.recoveries|
    ensures var r := w.recoveries[k];
            if !Speaks(w, r) then RestAnswered(w, k, reply, now, cfg) == Closing(w, k)
            else if reply.RestFailed? || !Covered(CoverageMap(reply.records), r.fromMs, r.toMs, now) then
              RestAnswered(w, k, reply, now, cfg) == GiveUp(w, k, cfg)
            else
              var batch := Batch(CoverageMap(reply.records), r.fromMs, r.toMs, now).GetOr([]);
              RestAnswered(w, k, reply, now, cfg) ==
              match BeginApplication(w.machines[r.machine].machine, batch, r.epoch)
              case Continue(a) => w.(recoveries := w.recoveries[k := r.(progress := Applying(a))])
              case _ => Closing(w, k)
  {
    hide GiveUp, CoverageMap, Batch, BeginApplication, Covered;
    if reply.Records? {
      BatchIsExact(CoverageMap(reply.records), w.recoveries[k].fromMs, w.recoveries[k].toMs, now);
    }
  }

  /** An application that resumes does what its machine does with it, and goes on, ends or fails with it. */
  lemma {:induction false} ContinuingIsExact(w: World, k: nat, answer: ReadAnswer, now: int, cfg: Config)
    requires WellFormed(w) && k < |w.recoveries| && w.recoveries[k].progress.Applying?
    ensures var r := w.recoveries[k];
            var s := ApplicationResumed(r.progress.application, answer, now);
            var moved := Touch(w, r.machine, s, cfg);
            ApplicationResumes(w, k, answer, now, cfg) ==
            match React(w.machines[r.machine].machine, s, cfg).next
            case Finished => Closing(moved, k)
            case Continue(a) => moved.(recoveries := moved.recoveries[k := moved.recoveries[k].(progress := Applying(a))])
            case Threw => GiveUp(moved, k, cfg)
  {
    hide Touch, React, GiveUp;
  }

  /** A recovery asked for from outside opens a new recovery epoch of the machine in service. */
  lemma {:induction false} RequestIsExact(w: World, fromMs: int, toMs: int, cfg: Config)
    requires WellFormed(w)
    ensures RequestRecoveryNow(w, fromMs, toMs, cfg) ==
            if w.isStopped || w.installed.None? then w
            else
              var entered := Touch(w, w.installed.value, RecoveryEntered, cfg);
              ExecuteRecovery(entered, fromMs, toMs, entered.machines[w.installed.value].machine.recoveryEpoch)
  {
    hide Touch, ExecuteRecovery;
  }

  // -------------------------------------------------------------------- writes


  /** A row lands under its minute, as it was handed over, if the minute is free; and no other row changes. */
  lemma {:induction false} LandingIsExact(w: World, k: nat, cfg: Config)
    requires WellFormed(w)
    ensures CanTake(w, WriteLands(k)) <==> k < |w.writes| && w.writes[k].stage == Running(false) && w.writes[k].candle.openTimeMs !in w.store
    ensures CanTake(w, WriteLands(k)) ==>
              Take(w, WriteLands(k), cfg) == w.(store := w.store[w.writes[k].candle.openTimeMs := w.writes[k].candle],
                                                writes := w.writes[k := w.writes[k].(stage := Running(true))])
  {
  }

  /** The stored row says the same as the candle; an unknown quote volume contradicts nothing. */
  predicate SaysTheSame(row: Candle, c: Candle) {
    && row.pair == c.pair && row.openTimeMs == c.openTimeMs
    && row.values.open == c.values.open && row.values.high == c.values.high && row.values.low == c.values.low
    && row.values.close == c.values.close && row.values.volume == c.values.volume
    && (row.values.quoteVolume.Some? && c.values.quoteVolume.Some? ==> row.values.quoteVolume == c.values.quoteVolume)
  }

  /** Its outcome: inserted only if its row has landed; already there only if it has not, and the row of its minute says the
      same; or an exception, at any time. */
  lemma {:induction false} SettlingIsExact(w: World, k: nat, outcome: Outcome, cfg: Config)
    requires WellFormed(w)
    ensures CanTake(w, WriteSettles(k, outcome)) <==>
              && k < |w.writes| && w.writes[k].stage.Running?
              && match outcome
                 case INSERTED => w.writes[k].stage.landed
                 case ALREADY_IDENTICAL =>
                   var t := w.writes[k].candle.openTimeMs; !w.writes[k].stage.landed && t in w.store && SaysTheSame(w.store[t], w.writes[k].candle)
                 case THROWN => true
    ensures CanTake(w, WriteSettles(k, outcome)) ==>
              Take(w, WriteSettles(k, outcome), cfg) == w.(writes := w.writes[k := w.writes[k].(stage := Resolved, outcome := Some(outcome))])
  {
  }

  /** The write may be announced: it inserted its row, in this run, for the machine in service, whose epochs its token still
      has. */
  predicate Announceable(w: World, x: Write)
    requires x.machine < |w.machines|
  {
    var token, m := x.candidate.token, w.machines[x.machine].machine;
    && x.outcome == Some(INSERTED) && w.machines[x.machine].runId == w.runId && w.installed == Some(x.machine)
    && token.canonicalEpoch == m.canonicalEpoch && (x.candidate.origin == REST_RECOVERY ==> token.recoveryEpoch == m.recoveryEpoch)
  }

  /** The callback of a settled write: an exception is passed on; otherwise the commit succeeds, and exactly an announceable one
      is announced first, to whoever has subscribed by then. */
  lemma {:induction false} CallbackIsExact(w: World, k: nat)
    requires WellFormed(w) && k < |w.writes| && w.writes[k].outcome.Some?
    ensures var x := w.writes[k];
            CallbackResumes(w, k) ==
            if Announceable(w, x) then
              w.(events := w.events + [Event(x.candle.openTimeMs, w.runId, x.machine)],
                 writes := w.writes[k := x.(stage := Notifying(w.subscribers, w.runId))])
            else w.(writes := w.writes[k := x.(stage := Answered(x.outcome != Some(THROWN)))])
  {
  }

  /** One turn of the dispatch: the next subscriber gets the event, unless the run has ended; at the end the commit succeeds. */
  lemma {:induction false} TurnIsExact(w: World, k: nat)
    requires k < |w.writes| && w.writes[k].stage.Notifying?
    ensures var x := w.writes[k];
            var recipients := x.stage.recipients;
            DispatchTurn(w, k) ==
            if recipients != [] && x.stage.dispatchRun == w.runId then
              w.(deliveries := w.deliveries + [Delivery(recipients[0], x.candle.openTimeMs, w.runId, w.runId)],
                 writes := w.writes[k := x.(stage := Notifying(recipients[1..], w.runId))])
            else w.(writes := w.writes[k := x.(stage := Answered(true))])
  {
  }

  /** A commit resumes once, with the answer of its own write; timers, cleanups and lookups reach the machine they belong to. */
  lemma {:induction false} RoutingIsExact(w: World, s: Step, cfg: Config)
    requires WellFormed(w) && CanTake(w, s)
    ensures s.CommitResumes? ==>
              s.write < |w.writes| && w.writes[s.write].stage.Answered? &&
              var x := w.writes[s.write];
              var consumed := w.(writes := w.writes[s.write := x.(stage := Consumed)]);
              WellFormed(consumed) && Take(w, s, cfg) == Touch(consumed, x.machine, CommitAnswered(x.stage.ok), cfg)
    ensures s.TimerFires? ==> s.machine < |w.machines| && Take(w, s, cfg) == Touch(w, s.machine, GraceTimer(s.timerId, s.now), cfg)
    ensures s.CommitFinishes? ==> s.machine < |w.machines| && Take(w, s, cfg) == Touch(w, s.machine, CommitCleanup(s.now), cfg)
    ensures s.HistoricalAnswered? ==>
              s.lookup < |w.lookups| &&
              var l := w.lookups[s.lookup];
              var rest := w.(lookups := w.lookups[..s.lookup] + w.lookups[s.lookup + 1..]);
              WellFormed(rest) && Take(w, s, cfg) == Touch(rest, l.machine, HistoricalRead(l.late, l.token, s.answer), cfg)
    ensures s.Subscribed? ==> s.subscriber !in w.subscribers && Take(w, s, cfg) == w.(subscribers := w.subscribers + [s.subscriber])
    ensures s.EngineStarts? ==> Take(w, s, cfg) == w.(isStopped := false)
    ensures s.WriteStarts? ==>
              s.write < |w.writes| && w.writes[s.write].stage == Queued && (s.write > 0 ==> w.writes[s.write - 1].outcome.Some?)
              && Take(w, s, cfg) == w.(writes := w.writes[s.write := w.writes[s.write].(stage := Running(false))])
  {
    hide Touch, EnvelopeHandled, BeginAttempt, LatestStored, Install, ResumeDispatch, CallbackResumes, DispatchTurn, RequestRecoveryNow, RestAnswered,
      ApplicationResumes, StopEngine, Engine.Without;
    if s.CommitResumes? {
      assert WellFormed(w.(writes := w.writes[s.write := w.writes[s.write].(stage := Consumed)]));
    } else if s.HistoricalAnswered? {
      assert WellFormed(w.(lookups := w.lookups[..s.lookup] + w.lookups[s.lookup + 1..]));
    }
  }

  /** A subscriber joins at the end, and whoever leaves is gone; nobody else moves. */
  lemma {:induction false} LeavingIsExact(xs: seq<nat>, x: nat)
    ensures multiset(Engine.Without(xs, x)) == multiset(xs)[x := 0] && x !in Engine.Without(xs, x)
    ensures forall y <- Engine.Without(xs, x) :: y in xs
  {
    if xs != [] {
      LeavingIsExact(xs[..|xs| - 1], x);
      assert xs == xs[..|xs| - 1] + [xs[|xs| - 1]];
    }
  }
}
