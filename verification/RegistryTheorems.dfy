/** What every operation of the registry keeps. */
module RegistryTheorems {
  import opened Common
  import opened Registry

  // ------------------------------------------------------------- invariants

  ghost predicate FiledRight(s: State, key: string)
    requires key in s.byUnderlying
  {
    && Known(s, key) && Current(s, key).profile.underlying == key
    && key in s.revisions && key in s.lifecycleRevisions
  }

  /** A registered coin is ready exactly while it carries evidence of its latest lifecycle revision. */
  ghost predicate ReadyWithEvidence(s: State, key: string)
    requires Known(s, key)
  {
    var r := Current(s, key);
    && (r.lifecycle == DATA_READY <==> r.dataReadiness.Some?)
    && (r.dataReadiness.Some? ==>
          r.dataReadiness.value.lifecycleRevision == Latest(s.lifecycleRevisions, key) && r.dataReadiness.value.evidence < |s.issued|)
    && (r.instrument.None? ==> r.lifecycle == DISABLED)
  }

  ghost predicate IssuedRight(s: State, i: nat)
    requires i < |s.issued|
  {
    var (issued, proof) := (s.issued[i], s.issued[i].proof);
    && proof.pair == issued.instrument.pair && Trim(proof.pair) == proof.pair
    && proof.operationRevision <= Latest(s.revisions, proof.underlying)
    && (issued.promoted.Some? ==> proof.operationRevision < Latest(s.revisions, proof.underlying))
  }

  /** No coin is past PAPER. */
  predicate Capped(r: Record) {
    r.lifecycle !in FUNDING_BLOCKED
  }

  ghost predicate Sound(s: State) {
    && (forall key <- s.byUnderlying :: FiledRight(s, key) && ReadyWithEvidence(s, key))
    && (forall r <- s.records :: Capped(r))
    && (forall i :: 0 <= i < |s.issued| ==> IssuedRight(s, i))
    && (forall i :: 0 <= i < |s.preparations| ==> s.preparations[i].operationRevision <= Latest(s.revisions, s.preparations[i].key))
  }

  /** The two indexes describe the same records, one to one. */
  ghost predicate PairFiled(s: State, pair: string)
    requires pair in s.byPair
  {
    var id := s.byPair[pair];
    && id < |s.records| && s.records[id].instrument.Some? && Trim(s.records[id].instrument.value.pair) == pair
    && s.records[id].profile.underlying in s.byUnderlying && s.byUnderlying[s.records[id].profile.underlying] == id
  }

  ghost predicate UnderlyingFiled(s: State, key: string) {
    Discovered(s, key) ==>
      var pair := Trim(Current(s, key).instrument.value.pair);
      pair in s.byPair && s.byPair[pair] == s.byUnderlying[key]
  }

  ghost predicate Indexed(s: State) {
    && (forall pair <- s.byPair :: PairFiled(s, pair))
    && (forall key <- s.byUnderlying :: UnderlyingFiled(s, key))
  }

  ghost predicate Risen(s: State, s': State) {
    && (forall key: string :: Latest(s.revisions, key) <= Latest(s'.revisions, key))
    && (forall key: string :: Latest(s.lifecycleRevisions, key) <= Latest(s'.lifecycleRevisions, key))
  }

  lemma {:induction false} EmptyIsSound()
    ensures Sound(EMPTY) && Indexed(EMPTY)
  {
  }

  // ---------------------------------------------------------- notifications

  /** Sound, except that the evidence of one coin, just changed, is not yet adjusted. */
  ghost predicate Pending(s: State, key: string) {
    && (forall k <- s.byUnderlying :: FiledRight(s, k) || (k == key && Known(s, key) && Current(s, key).profile.underlying == key))
    && (forall k <- s.byUnderlying :: k == key || ReadyWithEvidence(s, k))
    && (forall r <- s.records :: Capped(r))
    && (forall i :: 0 <= i < |s.issued| ==> IssuedRight(s, i) || (s.issued[i].proof.underlying == key && Reissued(s, i)))
    && (forall i :: 0 <= i < |s.preparations| ==> s.preparations[i].operationRevision <= Latest(s.revisions, s.preparations[i].key))
  }

  /** The proof being used: right as soon as the revision has moved on. */
  ghost predicate Reissued(s: State, i: nat)
    requires i < |s.issued|
  {
    var (issued, proof) := (s.issued[i], s.issued[i].proof);
    && proof.pair == issued.instrument.pair && Trim(proof.pair) == proof.pair
    && proof.operationRevision <= Latest(s.revisions, proof.underlying)
  }

  lemma {:induction false} NotificationSettles(s: State, key: string, readiness: Option<nat>)
    requires Pending(s, key) && (readiness.Some? ==> readiness.value < |s.issued|)
    requires Known(s, key) ==> (Current(s, key).instrument.None? ==> Current(s, key).lifecycle == DISABLED && Current(s, key).dataReadiness.None?)
    requires Discovered(s, key) ==> (Current(s, key).lifecycle == DATA_READY <==> readiness.Some?)
    ensures Sound(Notified(s, key, readiness))
  {
    var s' := Notified(s, key, readiness);
    forall k | k in s'.byUnderlying ensures FiledRight(s', k) && ReadyWithEvidence(s', k) {
      assert Current(s, k).profile.underlying == k;
      assert k != key && key in s.byUnderlying ==> s.byUnderlying[k] != s.byUnderlying[key];
    }
    forall r | r in s'.records ensures Capped(r) {
      var i :| 0 <= i < |s'.records| && s'.records[i] == r;
      assert s.records[i] in s.records && Capped(s.records[i]);
    }
    forall i | 0 <= i < |s'.issued| ensures IssuedRight(s', i) {
      assert IssuedRight(s, i) || (s.issued[i].proof.underlying == key && Reissued(s, i));
    }
  }

  lemma {:induction false} SoundIsPending(s: State, key: string)
    requires Sound(s)
    ensures Pending(s, key)
  {
  }

  lemma {:induction false} InstalledSound(s: State, r: Runtime)
    requires Sound(s) && InitialLifecycle(r)
    ensures Sound(Installed(s, r))
  {
    var (key, id) := (r.profile.underlying, |s.records|);
    var s1 := s.(records := s.records + [NewRecord(r)], byUnderlying := s.byUnderlying[key := id],
                 byPair := if r.instrument.Some? then s.byPair[Trim(r.instrument.value.pair) := id] else s.byPair);
    forall k | k in s1.byUnderlying && k != key ensures FiledRight(s1, k) && ReadyWithEvidence(s1, k) {
      assert FiledRight(s, k) && ReadyWithEvidence(s, k);
    }
    forall i | 0 <= i < |s1.issued| ensures IssuedRight(s1, i) {
      assert IssuedRight(s, i);
    }
    hide Trim;
    NotificationSettles(s1, key, None);
  }

  lemma {:induction false} TransitionSound(s: State, key: string, next: Lifecycle)
    requires Sound(s)
    ensures Sound(TransitionLifecycle(s, key, next).GetOr(s))
  {
    var result := TransitionLifecycle(s, key, next);
    if result.Some? {
      assert FiledRight(s, key) && ReadyWithEvidence(s, key);
      var record := Current(s, key);
      if record.lifecycle == DISABLED && next == DISABLED {
        SoundIsPending(s, key);
        NotificationSettles(s, key, None);
      } else {
        var s1 := s.(records := s.records[s.byUnderlying[key] := record.(lifecycle := next)]);
        Relabelled(s, key, next);
        NotificationSettles(s1, key, None);
      }
    }
  }

  lemma {:induction false} Relabelled(s: State, key: string, next: Lifecycle)
    requires Sound(s) && Known(s, key) && next !in FUNDING_BLOCKED
    ensures Pending(s.(records := s.records[s.byUnderlying[key] := Current(s, key).(lifecycle := next)]), key)
  {
    var s1 := s.(records := s.records[s.byUnderlying[key] := Current(s, key).(lifecycle := next)]);
    forall k | k in s1.byUnderlying ensures FiledRight(s1, k) && (k == key || ReadyWithEvidence(s1, k)) {
      assert FiledRight(s, k) && ReadyWithEvidence(s, k) && FiledRight(s, key);
    }
    forall r | r in s1.records ensures Capped(r) {
      var i :| 0 <= i < |s1.records| && s1.records[i] == r;
      assert Capped(s.records[i]);
    }
    forall i | 0 <= i < |s1.issued| ensures IssuedRight(s1, i) {
      assert IssuedRight(s, i);
    }
  }

  lemma {:induction false} PromotionSound(s: State, key: string, proof: nat)
    requires Sound(s) && PromotesAfresh(s, key, proof)
    ensures Sound(Promoted(s, key, proof))
  {
    assert Capped(Current(s, key).(lifecycle := DATA_READY));
    PromotionPends(s, key, proof);
    hide Pending, Sound, PromotesAfresh, Notified;
    NotificationSettles(Repointed(s, key, proof), key, Some(proof));
  }

  /** Both indexes point to the promoted record, and nobody has been notified yet. */
  function Repointed(s: State, key: string, proof: nat): State
    requires Matches(s, key, proof)
  {
    var (i, id) := (s.issued[proof], |s.records|);
    var promoted := Current(s, key).(lifecycle := DATA_READY, instrument := Some(i.instrument));
    s.(records := s.records + [promoted], byUnderlying := s.byUnderlying[key := id], byPair := s.byPair[i.proof.pair := id],
       issued := s.issued[proof := i.(promoted := Some(Promotion(id, Latest(s.revisions, key) + 1)))])
  }

  lemma {:induction false} PromotionPends(s: State, key: string, proof: nat)
    requires Sound(s) && PromotesAfresh(s, key, proof)
    ensures Pending(Repointed(s, key, proof), key)
  {
    var s1 := Repointed(s, key, proof);
    assert FiledRight(s, key);
    forall k | k in s1.byUnderlying && k != key ensures FiledRight(s1, k) && ReadyWithEvidence(s1, k) {
      assert FiledRight(s, k) && ReadyWithEvidence(s, k);
    }
    forall j | 0 <= j < |s1.issued| ensures if j == proof then Reissued(s1, j) else IssuedRight(s1, j) {
      assert IssuedRight(s, j);
    }
  }

  lemma {:induction false} ClearSound(s: State)
    requires Sound(s)
    ensures Sound(Clear(s))
  {
    var s' := Clear(s);
    forall i | 0 <= i < |s'.issued| ensures IssuedRight(s', i) {
      assert IssuedRight(s, i);
    }
  }

  lemma {:induction false} BeginningSound(s: State, key: string)
    requires Sound(s)
    ensures Sound(BeginDiscovery(s, key))
  {
    var s' := BeginDiscovery(s, key);
    forall k | k in s'.byUnderlying ensures FiledRight(s', k) && ReadyWithEvidence(s', k) {
      assert FiledRight(s, k) && ReadyWithEvidence(s, k);
    }
    forall i | 0 <= i < |s'.issued| ensures IssuedRight(s', i) {
      assert IssuedRight(s, i);
    }
  }

  lemma {:induction false} PrepareSound(s: State, key: string)
    requires Sound(s)
    ensures Sound(Prepare(s, key).GetOr(s))
  {
    var s' := Prepare(s, key).GetOr(s);
    var s1 := BeginDiscovery(s, key);
    BeginningSound(s, key);
    forall k | k in s'.byUnderlying ensures FiledRight(s', k) && ReadyWithEvidence(s', k) {
      assert FiledRight(s, k) && ReadyWithEvidence(s, k) && FiledRight(s1, k) && ReadyWithEvidence(s1, k);
    }
    forall i | 0 <= i < |s'.issued| ensures IssuedRight(s', i) {
      assert IssuedRight(s, i) && IssuedRight(s1, i);
    }
  }

  /** A pair in the form that initialization demands has nothing to trim. */
  lemma {:induction false} NamedPairIsTrimmed(p: Profile, i: Instrument)
    requires PairNamesInstrument(p, i)
    ensures Trim(i.pair) == i.pair
  {
    var last := i.quoteCurrency[|i.quoteCurrency| - 1];
    assert last in i.quoteCurrency && UpperOrDigit(last);
    assert i.pair[0] == 'B' && i.pair[|i.pair| - 1] == last;
  }

  lemma {:induction false} SettleSound(s: State, i: nat, answer: Option<Instrument>)
    requires Sound(s)
    ensures Sound(Settle(s, i, answer))
  {
    hide Trim;
    var s' := Settle(s, i, answer);
    forall k | k in s'.byUnderlying ensures FiledRight(s', k) && ReadyWithEvidence(s', k) {
      assert FiledRight(s, k) && ReadyWithEvidence(s, k);
    }
    forall j | 0 <= j < |s'.issued| ensures IssuedRight(s', j) {
      if j < |s.issued| {
        assert IssuedRight(s, j);
      } else {
        NamedPairIsTrimmed(s.records[s.preparations[i].record].profile, answer.value);
      }
    }
  }

  /** Every operation keeps the registry sound: readiness goes with evidence, and nothing passes PAPER. */
  lemma {:induction false} ApplySound(s: State, op: Operation)
    requires Sound(s)
    ensures Sound(Apply(s, op))
  {
    hide Sound, Settle, Prepare, Clear, TransitionLifecycle, Installed, Promoted, BeginDiscovery;
    match op
    case DoBeginDiscovery(key) => BeginningSound(s, key);
    case DoRegister(r) =>
      if InitialLifecycle(r) {
        InstalledSound(s, r);
      }
    case DoReplace(r) =>
      if InitialLifecycle(r) && r.instrument.Some? {
        UnfiledSound(s, r.profile.underlying, Trim(r.instrument.value.pair));
        InstalledSound(Unfiled(s, r.profile.underlying, Trim(r.instrument.value.pair)), r);
      }
    case DoTransition(key, next) => TransitionSound(s, key, next);
    case DoClear => ClearSound(s);
    case DoPrepare(key) => PrepareSound(s, key);
    case DoSettle(i, answer) => SettleSound(s, i, answer);
    case DoPromote(key, proof) =>
      if PromotesAfresh(s, key, proof) {
        PromotionSound(s, key, proof);
      }
  }

  lemma {:induction false} UnfiledSound(s: State, key: string, newPair: string)
    requires Sound(s)
    ensures Sound(Unfiled(s, key, newPair))
  {
    var s' := Unfiled(s, key, newPair);
    hide Trim;
    forall k | k in s'.byUnderlying ensures FiledRight(s', k) && ReadyWithEvidence(s', k) {
      assert FiledRight(s, k) && ReadyWithEvidence(s, k);
    }
    forall i | 0 <= i < |s'.issued| ensures IssuedRight(s', i) {
      assert IssuedRight(s, i);
    }
  }

  // ------------------------------------------------------------------ indexes

  lemma {:induction false} SameFiling(s: State, s': State)
    requires Indexed(s) && s'.byUnderlying == s.byUnderlying && s'.byPair == s.byPair && |s'.records| == |s.records|
    requires forall i :: 0 <= i < |s.records| ==>
               s'.records[i].profile == s.records[i].profile && s'.records[i].instrument == s.records[i].instrument
    ensures Indexed(s')
  {
    hide Trim;
    forall pair | pair in s'.byPair ensures PairFiled(s', pair) {
      assert PairFiled(s, pair);
    }
    forall key | key in s'.byUnderlying ensures UnderlyingFiled(s', key) {
      assert UnderlyingFiled(s, key);
    }
  }

  lemma {:induction false} NotifiedIndexed(s: State, key: string, readiness: Option<nat>)
    requires Indexed(s)
    ensures Indexed(Notified(s, key, readiness))
  {
    hide Indexed;
    SameFiling(s, Notified(s, key, readiness));
  }

  /** Indexed, except that one coin may miss its pair; no pair but `pair` leads to that coin. */
  ghost predicate IndexedBut(s: State, key: string, pair: string) {
    && (forall p <- s.byPair :: PairFiled(s, p) && (s.records[s.byPair[p]].profile.underlying == key ==> p == pair))
    && (forall k <- s.byUnderlying :: k == key || (FiledRight(s, k) && UnderlyingFiled(s, k)))
  }

  lemma {:induction false} InstalledIndexed(s: State, r: Runtime, pair: string)
    requires IndexedBut(s, r.profile.underlying, pair)
    requires r.instrument.Some? ==>
               Trim(r.instrument.value.pair) == pair && (pair in s.byPair ==> s.records[s.byPair[pair]].profile.underlying == r.profile.underlying)
    requires r.instrument.None? ==> r.profile.underlying !in s.byUnderlying
    ensures Indexed(Installed(s, r))
  {
    hide Trim;
    var (key, id) := (r.profile.underlying, |s.records|);
    var s1 := s.(records := s.records + [NewRecord(r)], byUnderlying := s.byUnderlying[key := id],
                 byPair := if r.instrument.Some? then s.byPair[pair := id] else s.byPair);
    forall p | p in s1.byPair ensures PairFiled(s1, p) {
      assert p in s.byPair ==> PairFiled(s, p);
    }
    forall k | k in s1.byUnderlying ensures UnderlyingFiled(s1, k) {
      if k != key {
        assert FiledRight(s, k) && UnderlyingFiled(s, k);
      }
    }
    NotifiedIndexed(s1, key, None);
  }

  lemma {:induction false} RegisterIndexed(s: State, r: Runtime)
    requires Sound(s) && Indexed(s)
    ensures Indexed(Register(s, r).GetOr(s))
  {
    var result := Register(s, r);
    if result.Some? {
      var key := r.profile.underlying;
      var pair := if r.instrument.Some? then Trim(r.instrument.value.pair) else "";
      hide Trim, Installed;
      forall p | p in s.byPair ensures PairFiled(s, p) && s.records[s.byPair[p]].profile.underlying != key {
        assert PairFiled(s, p);
      }
      InstalledIndexed(s, r, pair);
    }
  }

  lemma {:induction false} UnfiledIndexed(s: State, key: string, pair: string)
    requires Sound(s) && Indexed(s) && !OwnedByOther(s, pair, key)
    ensures IndexedBut(Unfiled(s, key, pair), key, pair)
    ensures var s' := Unfiled(s, key, pair);
            pair in s'.byPair ==> s'.records[s'.byPair[pair]].profile.underlying == key
  {
    hide Trim;
    var s' := Unfiled(s, key, pair);
    forall p | p in s'.byPair ensures PairFiled(s', p) && (s'.records[s'.byPair[p]].profile.underlying == key ==> p == pair) {
      assert PairFiled(s, p);
    }
    forall k | k in s'.byUnderlying && k != key ensures FiledRight(s', k) && UnderlyingFiled(s', k) {
      assert FiledRight(s, k) && UnderlyingFiled(s, k);
      assert key in s.byUnderlying ==> FiledRight(s, key) && UnderlyingFiled(s, key);
    }
  }

  lemma {:induction false} ReplaceIndexed(s: State, r: Runtime)
    requires Sound(s) && Indexed(s)
    ensures Indexed(ReplaceOrRegister(s, r).GetOr(s))
  {
    if ReplaceOrRegister(s, r).Some? {
      var (key, pair) := (r.profile.underlying, Trim(r.instrument.value.pair));
      UnfiledIndexed(s, key, pair);
      hide Sound, Indexed, IndexedBut, Unfiled, Installed, Trim;
      InstalledIndexed(Unfiled(s, key, pair), r, pair);
    }
  }

  lemma {:induction false} TransitionIndexed(s: State, key: string, next: Lifecycle)
    requires Indexed(s)
    ensures Indexed(TransitionLifecycle(s, key, next).GetOr(s))
  {
    if TransitionLifecycle(s, key, next).Some? {
      var s1 := s.(records := s.records[s.byUnderlying[key] := Current(s, key).(lifecycle := next)]);
      hide Indexed, Notified;
      SameFiling(s, s1);
      NotifiedIndexed(s, key, None);
      NotifiedIndexed(s1, key, None);
    }
  }

  /** Registration files a pair under its trimmed name, promotion under the name as it is; but a proof is only ever issued
      for a pair with nothing to trim, so the two names are the same. */
  lemma {:induction false} PromotionKeepsIndexes(s: State, key: string, proof: nat)
    requires Sound(s) && Indexed(s) && PromotesAfresh(s, key, proof)
    ensures Indexed(Promoted(s, key, proof))
    ensures Trim(Current(s, key).instrument.value.pair) == Current(s, key).instrument.value.pair
  {
    hide Trim, Notified;
    var s1 := Repointed(s, key, proof);
    assert IssuedRight(s, proof) && FiledRight(s, key) && UnderlyingFiled(s, key);
    forall p | p in s1.byPair ensures PairFiled(s1, p) {
      assert p in s.byPair ==> PairFiled(s, p);
    }
    forall k | k in s1.byUnderlying ensures UnderlyingFiled(s1, k) {
      assert k in s.byUnderlying ==> FiledRight(s, k) && UnderlyingFiled(s, k);
    }
    NotifiedIndexed(s1, key, Some(proof));
  }

  /** Every operation keeps the two indexes together. */
  lemma {:induction false} ApplyIndexed(s: State, op: Operation)
    requires Sound(s) && Indexed(s)
    ensures Indexed(Apply(s, op))
  {
    hide Sound, Indexed, Register, ReplaceOrRegister, TransitionLifecycle, BeginDiscovery, Prepare, Settle, Promoted, Clear;
    match op
    case DoRegister(r) => RegisterIndexed(s, r);
    case DoReplace(r) => ReplaceIndexed(s, r);
    case DoTransition(key, next) => TransitionIndexed(s, key, next);
    case DoClear => ClearedIndexed(s);
    case DoBeginDiscovery(key) => InitializationIndexed(s, op);
    case DoPrepare(key) => InitializationIndexed(s, op);
    case DoSettle(i, answer) => InitializationIndexed(s, op);
    case DoPromote(key, proof) =>
      if PromotesAfresh(s, key, proof) {
        PromotionKeepsIndexes(s, key, proof);
      }
  }

  lemma {:induction false} ClearedIndexed(s: State)
    ensures Indexed(Clear(s))
  {
  }

  /** Discoveries and initializations file nothing. */
  lemma {:induction false} InitializationIndexed(s: State, op: Operation)
    requires Indexed(s) && (op.DoBeginDiscovery? || op.DoPrepare? || op.DoSettle?)
    ensures Indexed(Apply(s, op))
  {
    hide Indexed, PairNamesInstrument;
    SameFiling(s, Apply(s, op));
  }

  ghost predicate Consistent(s: State) {
    Sound(s) && Indexed(s)
  }

  lemma {:induction false} ApplyKeeps(s: State, op: Operation)
    requires Consistent(s)
    ensures Consistent(Apply(s, op))
  {
    hide Sound, Indexed, Apply;
    ApplySound(s, op);
    ApplyIndexed(s, op);
  }
}
