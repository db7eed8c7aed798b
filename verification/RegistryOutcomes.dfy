/** What each operation of the registry does, whole, in terms of its indexes, records, revisions and proofs. */
module RegistryOutcomes {
  import opened Common
  import opened Registry
  import opened RegistryHistories

  // --------------------------------------------------------------- trimming

  /** `t` is `s` without the spaces at both ends. */
  predicate TrimmedAt(s: string, t: string, from: nat, to: nat) {
    && from <= to <= |s| && t == s[from..to]
    && (forall k :: 0 <= k < |s| && !(from <= k < to) ==> IsSpace(s[k]))
    && (from < to ==> !IsSpace(s[from]) && !IsSpace(s[to - 1]))
  }

  lemma {:induction false} TrimIsExact(s: string) returns (from: nat, to: nat)
    ensures TrimmedAt(s, Trim(s), from, to)
  {
    hide IsSpace;
    if s == "" {
      from, to := 0, 0;
    } else if IsSpace(s[0]) {
      var f, t := TrimIsExact(s[1..]);
      from, to := f + 1, t + 1;
      assert s[1..][f..t] == s[from..to];
      forall k | 0 <= k < |s| && !(from <= k < to) ensures IsSpace(s[k]) {
        if k > 0 {
          assert s[k] == s[1..][k - 1];
        }
      }
    } else if IsSpace(s[|s| - 1]) {
      var front := s[..|s| - 1];
      from, to := TrimIsExact(front);
      assert front[from..to] == s[from..to];
      forall k | 0 <= k < |s| && !(from <= k < to) ensures IsSpace(s[k]) {
        if k < |s| - 1 {
          assert s[k] == front[k];
        }
      }
    } else {
      from, to := 0, |s|;
    }
  }

  // ----------------------------------------------------------- registrations

  function RevisionOf(m: map<string, int>, key: string): int {
    if key in m then m[key] else 0
  }

  /** Both revisions of the coin rise by one, and no others change. */
  predicate Raised(s: State, s': State, key: string) {
    && s'.revisions == s.revisions[key := RevisionOf(s.revisions, key) + 1]
    && s'.lifecycleRevisions == s.lifecycleRevisions[key := RevisionOf(s.lifecycleRevisions, key) + 1]
  }

  predicate AtItsStart(r: Runtime) {
    r.lifecycle == DISCOVERED || r.lifecycle == DISABLED
  }

  /** A new record under the coin's symbol, without evidence; one without an instrument is disabled. */
  predicate RecordAdded(s: State, s': State, r: Runtime) {
    && s'.records == s.records + [Record(r.profile, r.instrument, if r.instrument.None? then DISABLED else r.lifecycle, None)]
    && s'.byUnderlying == s.byUnderlying[r.profile.underlying := |s.records|]
    && Raised(s, s', r.profile.underlying) && s'.issued == s.issued && s'.preparations == s.preparations
  }

  lemma {:induction false} InstallingAdds(s: State, r: Runtime)
    ensures RecordAdded(s, Installed(s, r), r)
    ensures Installed(s, r).byPair == if r.instrument.Some? then s.byPair[Trim(r.instrument.value.pair) := |s.records|] else s.byPair
  {
    hide Trim;
    assert (s.records + [NewRecord(r)])[|s.records|] == NewRecord(r);
    assert (s.records + [NewRecord(r)])[|s.records| := NewRecord(r)] == s.records + [NewRecord(r)];
  }

  /** A registration is refused exactly if its lifecycle is not a start, or its symbol or its trimmed pair is taken. */
  lemma {:induction false} RegistersExactly(s: State, r: Runtime)
    ensures Register(s, r).Some? <==>
              && AtItsStart(r) && r.profile.underlying !in s.byUnderlying
              && (r.instrument.Some? ==> Trim(r.instrument.value.pair) !in s.byPair)
    ensures Register(s, r).Some? ==>
              && RecordAdded(s, Register(s, r).value, r)
              && Register(s, r).value.byPair ==
                 if r.instrument.Some? then s.byPair[Trim(r.instrument.value.pair) := |s.records|] else s.byPair
  {
    InstallingAdds(s, r);
    hide Installed, RecordAdded, Trim;
  }

  /** The pair belongs to another coin. */
  predicate Taken(s: State, pair: string, key: string) {
    pair in s.byPair && s.byPair[pair] < |s.records| && s.records[s.byPair[pair]].profile.underlying != key
  }

  /** The pair that the coin is registered with. */
  predicate HeldPair(s: State, key: string, pair: string) {
    && key in s.byUnderlying && s.byUnderlying[key] < |s.records| && s.records[s.byUnderlying[key]].instrument.Some?
    && pair == Trim(s.records[s.byUnderlying[key]].instrument.value.pair)
  }

  /** A rediscovery is refused exactly if it has no instrument, does not start at the start, or its pair is another coin's. The
      pair held before leaves the index unless it is the same. */
  lemma {:induction false} ReplacesExactly(s: State, r: Runtime)
    ensures ReplaceOrRegister(s, r).Some? <==>
              r.instrument.Some? && AtItsStart(r) && !Taken(s, Trim(r.instrument.value.pair), r.profile.underlying)
    ensures ReplaceOrRegister(s, r).Some? ==>
              var s' := ReplaceOrRegister(s, r).value;
              var pair := Trim(r.instrument.value.pair);
              && RecordAdded(s, s', r) && pair in s'.byPair && s'.byPair[pair] == |s.records|
              && forall p :: p != pair ==>
                   && (p in s'.byPair <==> p in s.byPair && !HeldPair(s, r.profile.underlying, p))
                   && (p in s'.byPair ==> s'.byPair[p] == s.byPair[p])
  {
    hide Trim;
    if r.instrument.Some? {
      InstallingAdds(Unfiled(s, r.profile.underlying, Trim(r.instrument.value.pair)), r);
    }
    hide Installed;
  }

  // -------------------------------------------------------------- transitions

  /** Exactly the coin's own record changes: its lifecycle, and its evidence lapses. */
  lemma {:induction false} TransitionsExactly(s: State, key: string, next: Lifecycle)
    requires TransitionLifecycle(s, key, next).Some?
    ensures Known(s, key)
    ensures var s' := TransitionLifecycle(s, key, next).value;
            var id := s.byUnderlying[key];
            && s' == s.(records := s'.records, revisions := s'.revisions, lifecycleRevisions := s'.lifecycleRevisions) && Raised(s, s', key)
            && |s'.records| == |s.records| && (forall k :: 0 <= k < |s.records| && k != id ==> s'.records[k] == s.records[k])
            && s'.records[id] == s.records[id].(lifecycle := next, dataReadiness := s'.records[id].dataReadiness)
            && (s.records[id].instrument.Some? ==> s'.records[id].dataReadiness.None?)
  {
    hide AuthorizedTransition;
  }

  /** Clearing empties both indexes and raises both revisions of every coin ever seen; records and proofs stay as they are. */
  lemma {:induction false} ClearsExactly(s: State)
    ensures var s' := Clear(s);
            && s' == s.(byUnderlying := map[], byPair := map[], revisions := s'.revisions, lifecycleRevisions := s'.lifecycleRevisions)
            && (forall key :: key in s'.revisions <==> key in s.revisions)
            && (forall key <- s.revisions :: s'.revisions[key] == s.revisions[key] + 1)
            && (forall key <- s.revisions :: RevisionOf(s'.lifecycleRevisions, key) == RevisionOf(s.lifecycleRevisions, key) + 1)
            && (forall key :: key !in s.revisions ==> RevisionOf(s'.lifecycleRevisions, key) == RevisionOf(s.lifecycleRevisions, key))
  {
  }

  // ------------------------------------------------------------------- proofs

  predicate NextToReady(l: Lifecycle) {
    l == DATA_LOADING || l == BACKTESTING
  }

  /** An initialization begins exactly for a discovered coin next to DATA_READY, and claims the next revision. */
  lemma {:induction false} PreparesExactly(s: State, key: string)
    ensures Prepare(s, key).Some? <==>
              && key in s.byUnderlying && s.byUnderlying[key] < |s.records| && s.records[s.byUnderlying[key]].instrument.Some?
              && NextToReady(s.records[s.byUnderlying[key]].lifecycle)
    ensures Prepare(s, key).Some? ==>
              var s' := Prepare(s, key).value;
              var revision := RevisionOf(s.revisions, key) + 1;
              s' == s.(revisions := s.revisions[key := revision],
                       preparations := s.preparations + [Preparation(key, s.byUnderlying[key], RevisionOf(s.lifecycleRevisions, key), revision, false)])
  {
  }

  /** What an initialization promised still stands: the same record under the symbol, and no revision since. */
  predicate Undisturbed(s: State, p: Preparation) {
    && p.key in s.byUnderlying && s.byUnderlying[p.key] == p.record && p.record < |s.records|
    && RevisionOf(s.revisions, p.key) == p.operationRevision && RevisionOf(s.lifecycleRevisions, p.key) == p.lifecycleRevision
  }

  /** The answer is the registered pair, spelled out of the coin and its quote currency. */
  predicate Confirms(record: Record, answer: Option<Instrument>) {
    && answer.Some? && record.instrument.Some? && answer.value.pair == record.instrument.value.pair
    && answer.value.pair == "B-" + record.profile.underlying + "_" + answer.value.quoteCurrency
    && Capitals(record.profile.underlying) && Capitals(answer.value.quoteCurrency)
  }

  predicate Capitals(word: string) {
    |word| > 0 && forall k :: 0 <= k < |word| ==> 'A' <= word[k] <= 'Z' || '0' <= word[k] <= '9'
  }

  lemma {:induction false} WordsAreCapitals(word: string)
    ensures Word(word) <==> Capitals(word)
  {
    if Word(word) {
      forall k | 0 <= k < |word| ensures 'A' <= word[k] <= 'Z' || '0' <= word[k] <= '9' {
        assert word[k] in word;
      }
    }
  }

  /** An initialization ends once, and with a proof exactly if nothing has disturbed it and the answer confirms the coin. */
  lemma {:induction false} SettlesExactly(s: State, i: nat, answer: Option<Instrument>)
    ensures if i >= |s.preparations| || s.preparations[i].settled then Settle(s, i, answer) == s
            else
              var p := s.preparations[i];
              var ended := s.(preparations := s.preparations[i := p.(settled := true)]);
              if Undisturbed(s, p) && Confirms(s.records[p.record], answer) then
                Settle(s, i, answer) == ended.(issued := s.issued + [Issued(
                  Proof(p.key, answer.value.pair, p.lifecycleRevision, p.operationRevision), p.record, answer.value, None)])
              else Settle(s, i, answer) == ended
  {
    if i < |s.preparations| && Undisturbed(s, s.preparations[i]) && answer.Some? {
      WordsAreCapitals(s.records[s.preparations[i].record].profile.underlying);
      WordsAreCapitals(answer.value.quoteCurrency);
    }
    hide Word, Capitals;
  }

  /** The proof is one of this registry's, for this coin and its pair. */
  predicate Fits(s: State, key: string, proof: nat) {
    && proof < |s.issued| && s.issued[proof].proof.underlying == key
    && key in s.byUnderlying && s.byUnderlying[key] < |s.records| && s.records[s.byUnderlying[key]].instrument.Some?
    && s.issued[proof].proof.pair == s.records[s.byUnderlying[key]].instrument.value.pair
  }

  /** The coin is DATA_READY by this very proof, and nothing has been begun since. */
  predicate PromotedBefore(s: State, key: string, proof: nat)
    requires Fits(s, key, proof)
  {
    var p := s.issued[proof].promoted;
    var record := s.records[s.byUnderlying[key]];
    && p.Some? && s.byUnderlying[key] == p.value.record && record.lifecycle == DATA_READY
    && record.dataReadiness.Some? && record.dataReadiness.value.evidence == proof && RevisionOf(s.revisions, key) == p.value.operationRevision
  }

  /** Record and revisions are those that the proof was issued for, and DATA_READY is a step away. */
  predicate Outstanding(s: State, key: string, proof: nat)
    requires Fits(s, key, proof)
  {
    var issued := s.issued[proof];
    && s.byUnderlying[key] == issued.record && RevisionOf(s.revisions, key) == issued.proof.operationRevision
    && RevisionOf(s.lifecycleRevisions, key) == issued.proof.lifecycleRevision && NextToReady(s.records[s.byUnderlying[key]].lifecycle)
  }

  /** A promotion is granted exactly by a fitting proof: one that has promoted the coin before changes nothing; one that is
      outstanding puts a new record, with its instrument and evidence of the new lifecycle revision, into both indexes. */
  lemma {:induction false} PromotesExactly(s: State, key: string, proof: nat)
    ensures PromoteDataReady(s, key, proof).Some? <==> Fits(s, key, proof) && (PromotedBefore(s, key, proof) || Outstanding(s, key, proof))
    ensures Fits(s, key, proof) && PromotedBefore(s, key, proof) ==> PromoteDataReady(s, key, proof) == Some(s)
    ensures Fits(s, key, proof) && !PromotedBefore(s, key, proof) && Outstanding(s, key, proof) ==>
              ReadyBy(s, PromoteDataReady(s, key, proof).value, key, proof)
  {
    hide Promoted;
    if PromotesAfresh(s, key, proof) {
      PromotedIsReady(s, key, proof);
    }
    hide ReadyBy;
  }

  predicate ReadyBy(s: State, s': State, key: string, proof: nat)
    requires Fits(s, key, proof)
  {
    var issued, id := s.issued[proof], |s.records|;
    var record := s.records[s.byUnderlying[key]];
    var evidence := Readiness(RevisionOf(s.lifecycleRevisions, key) + 1, proof);
    && s'.records == s.records + [Record(record.profile, Some(issued.instrument), DATA_READY, Some(evidence))]
    && s'.byUnderlying == s.byUnderlying[key := id] && s'.byPair == s.byPair[issued.proof.pair := id] && Raised(s, s', key)
    && s'.issued == s.issued[proof := issued.(promoted := Some(Promotion(id, RevisionOf(s.revisions, key) + 1)))]
    && s'.preparations == s.preparations
  }

  lemma {:induction false} PromotedIsReady(s: State, key: string, proof: nat)
    requires Fits(s, key, proof)
    ensures ReadyBy(s, Promoted(s, key, proof), key, proof)
  {
    var promoted := Current(s, key).(lifecycle := DATA_READY, instrument := Some(s.issued[proof].instrument));
    assert (s.records + [promoted])[|s.records|] == promoted;
    assert forall x :: (s.records + [promoted])[|s.records| := x] == s.records + [x];
  }
}
