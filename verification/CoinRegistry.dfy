/** The registry in the form of its source: an object whose two indexes, revisions and records are updated in place. */
module CoinRegistry {
  import opened Common
  import opened Registry
  import RegistryTheorems

  lemma {:induction false} NobodyNotified(s: State)
    ensures Cleared(s, {}) == s.(byUnderlying := map[], byPair := map[])
  {
  }

  lemma {:induction false} OneMoreNotified(s: State, notified: set<string>, key: string)
    requires key in s.revisions && key !in notified
    ensures Notified(Cleared(s, notified), key, None) == Cleared(s, notified + {key})
  {
    var (x, y) := (Notified(Cleared(s, notified), key, None), Cleared(s, notified + {key}));
    assert x.revisions == y.revisions;
    assert x.lifecycleRevisions == y.lifecycleRevisions;
  }

  ghost predicate SplitInto(all: set<string>, done: set<string>, rest: set<string>) {
    forall key :: (key in all <==> key in done || key in rest) && !(key in done && key in rest)
  }

  lemma {:induction false} EverythingLeft(all: set<string>)
    ensures SplitInto(all, {}, all)
  {
  }

  lemma {:induction false} SplitMoves(all: set<string>, done: set<string>, rest: set<string>, key: string)
    requires SplitInto(all, done, rest) && key in rest
    ensures SplitInto(all, done + {key}, rest - {key}) && key in all && key !in done
  {
  }

  lemma {:induction false} SplitEnds(all: set<string>, done: set<string>, rest: set<string>)
    requires SplitInto(all, done, rest) && rest == {}
    ensures done == all
  {
    assert forall key :: key in done <==> key in all;
  }

  class CoinRegistry {
    /** The record objects, by identity. */
    var records: seq<Record>
    var byUnderlying: map<string, nat>
    var byPair: map<string, nat>
    var revisions: map<string, int>
    var lifecycleRevisions: map<string, int>
    var readinessProofs: seq<Issued>
    /** The initializations that wait for the instrument reader, or waited once. */
    var preparations: seq<Preparation>

    ghost function View(): State
      reads this
    {
      State(records, byUnderlying, byPair, revisions, lifecycleRevisions, readinessProofs, preparations)
    }

    ghost predicate Valid()
      reads this
    {
      RegistryTheorems.Consistent(View())
    }

    constructor ()
      ensures Valid() && View() == EMPTY
    {
      records, byUnderlying, byPair, revisions, lifecycleRevisions := [], map[], map[], map[], map[];
      readinessProofs, preparations := [], [];
      new;
      RegistryTheorems.EmptyIsSound();
    }

    method BeginDiscovery(key: string) returns (revision: int)
      modifies this`revisions
      ensures View() == Registry.BeginDiscovery(old(View()), key) && revision == Latest(revisions, key)
    {
      revision := Latest(revisions, key) + 1;
      revisions := revisions[key := revision];
    }

    /** False where the source throws: the discovery was superseded. */
    method AssertDiscoveryOwner(key: string, revision: int) returns (owner: bool)
      ensures owner <==> key in revisions && revisions[key] == revision
    {
      owner := key in revisions && revisions[key] == revision;
    }

    method NotifyChanged(key: string, readiness: Option<nat>)
      modifies this`records, this`revisions, this`lifecycleRevisions
      ensures View() == Notified(old(View()), key, readiness)
    {
      var _ := BeginDiscovery(key);
      var revision := Latest(lifecycleRevisions, key) + 1;
      lifecycleRevisions := lifecycleRevisions[key := revision];
      if key in byUnderlying && byUnderlying[key] < |records| && records[byUnderlying[key]].instrument.Some? {
        var id := byUnderlying[key];
        records := records[id := records[id].(dataReadiness := None)];
        if readiness.Some? {
          records := records[id := records[id].(dataReadiness := Some(Readiness(revision, readiness.value)))];
        }
      }
    }

    method Register(r: Runtime) returns (ok: bool)
      requires Valid()
      modifies this
      ensures Valid() && ok == Registry.Register(old(View()), r).Some?
      ensures View() == Registry.Register(old(View()), r).GetOr(old(View()))
    {
      hide RegistryTheorems.Consistent, Trim, Notified;
      RegistryTheorems.ApplyKeeps(View(), DoRegister(r));
      if !InitialLifecycle(r) || r.profile.underlying in byUnderlying {
        return false;
      }
      var key := r.profile.underlying;
      if r.instrument.None? {
        byUnderlying, records := byUnderlying[key := |records|], records + [Record(r.profile, None, DISABLED, None)];
        NotifyChanged(key, None);
        return true;
      }
      var pair := Trim(r.instrument.value.pair);
      if pair in byPair {
        return false;
      }
      byUnderlying, byPair := byUnderlying[key := |records|], byPair[pair := |records|];
      records := records + [Record(r.profile, r.instrument, r.lifecycle, None)];
      NotifyChanged(key, None);
      return true;
    }

    method ReplaceOrRegisterDiscovered(r: Runtime) returns (ok: bool)
      requires Valid()
      modifies this
      ensures Valid() && ok == ReplaceOrRegister(old(View()), r).Some?
      ensures View() == ReplaceOrRegister(old(View()), r).GetOr(old(View()))
    {
      hide RegistryTheorems.Consistent, Trim, Notified;
      RegistryTheorems.ApplyKeeps(View(), DoReplace(r));
      if r.instrument.None? || !InitialLifecycle(r) {
        return false;
      }
      var key, newPair := r.profile.underlying, Trim(r.instrument.value.pair);
      if newPair in byPair && byPair[newPair] < |records| && records[byPair[newPair]].profile.underlying != key {
        return false;
      }
      if key in byUnderlying && byUnderlying[key] < |records| && records[byUnderlying[key]].instrument.Some? {
        var oldPair := Trim(records[byUnderlying[key]].instrument.value.pair);
        if oldPair != newPair {
          byPair := byPair - {oldPair};
        }
      }
      byUnderlying, byPair := byUnderlying[key := |records|], byPair[newPair := |records|];
      records := records + [Record(r.profile, r.instrument, r.lifecycle, None)];
      NotifyChanged(key, None);
      return true;
    }

    method TransitionLifecycle(key: string, next: Lifecycle) returns (ok: bool)
      requires Valid()
      modifies this
      ensures Valid() && ok == Registry.TransitionLifecycle(old(View()), key, next).Some?
      ensures View() == Registry.TransitionLifecycle(old(View()), key, next).GetOr(old(View()))
    {
      hide RegistryTheorems.Consistent, Notified, AuthorizedTransition;
      RegistryTheorems.ApplyKeeps(View(), DoTransition(key, next));
      if next == DATA_READY || !(key in byUnderlying && byUnderlying[key] < |records|) {
        return false;
      }
      var id := byUnderlying[key];
      if records[id].lifecycle == DISABLED && next == DISABLED {
        NotifyChanged(key, None);
        return true;
      }
      if !AuthorizedTransition(records[id].lifecycle, next, records[id].profile.liveEnabled) {
        return false;
      }
      records := records[id := records[id].(lifecycle := next)];
      NotifyChanged(key, None);
      return true;
    }

    /** Empties both indexes and revokes whatever is under way for any coin ever seen. */
    method Clear()
      requires Valid()
      modifies this
      ensures Valid() && View() == Registry.Clear(old(View()))
    {
      RegistryTheorems.ApplyKeeps(View(), DoClear);
      hide RegistryTheorems.Consistent, Cleared;
      ghost var before := View();
      NobodyNotified(before);
      byUnderlying, byPair := map[], map[];
      NotifyEverybody(before);
    }

    method NotifyEverybody(ghost before: State)
      requires View() == Cleared(before, {})
      modifies this`records, this`revisions, this`lifecycleRevisions
      ensures View() == Cleared(before, before.revisions.Keys)
    {
      var keys := revisions.Keys;
      assert keys == before.revisions.Keys;
      ghost var notified: set<string> := {};
      hide Notified, Cleared, SplitInto;
      EverythingLeft(keys);
      while keys != {}
        invariant SplitInto(before.revisions.Keys, notified, keys) && View() == Cleared(before, notified)
        decreases |keys|
      {
        assert (forall z :: z !in keys) ==> keys <= {};
        var key :| key in keys;
        SplitMoves(before.revisions.Keys, notified, keys, key);
        OneMoreNotified(before, notified, key);
        NotifyChanged(key, None);
        keys, notified := keys - {key}, notified + {key};
      }
      SplitEnds(before.revisions.Keys, notified, keys);
    }

    /** `prepareDataReadiness` up to its wait. */
    method PrepareDataReadiness(key: string) returns (ok: bool)
      requires Valid()
      modifies this
      ensures Valid() && ok == Prepare(old(View()), key).Some?
      ensures View() == Prepare(old(View()), key).GetOr(old(View()))
    {
      hide RegistryTheorems.Consistent, ValidTransition;
      RegistryTheorems.ApplyKeeps(View(), DoPrepare(key));
      if !(key in byUnderlying && byUnderlying[key] < |records|) || records[byUnderlying[key]].instrument.None? {
        return false;
      }
      var record := records[byUnderlying[key]];
      if !ValidTransition(record.lifecycle, DATA_READY, record.profile.liveEnabled) {
        return false;
      }
      var operationRevision := BeginDiscovery(key);
      preparations := preparations +
        [Preparation(key, byUnderlying[key], Latest(lifecycleRevisions, key), operationRevision, false)];
      return true;
    }

    /** The rest of it, when the reader has answered. */
    method SettleDataReadiness(i: nat, answer: Option<Instrument>)
      requires Valid()
      modifies this
      ensures Valid() && View() == Settle(old(View()), i, answer)
    {
      hide RegistryTheorems.Consistent;
      RegistryTheorems.ApplyKeeps(View(), DoSettle(i, answer));
      if i >= |preparations| || preparations[i].settled {
        return;
      }
      var p := preparations[i];
      preparations := preparations[i := p.(settled := true)];
      var owns := p.key in byUnderlying && byUnderlying[p.key] == p.record && p.record < |records|
                  && Latest(revisions, p.key) == p.operationRevision && Latest(lifecycleRevisions, p.key) == p.lifecycleRevision;
      if !owns || answer.None? || records[p.record].instrument.None? || answer.value.pair != records[p.record].instrument.value.pair
         || !PairNamesInstrument(records[p.record].profile, answer.value) {
        return;
      }
      var proof := Proof(p.key, answer.value.pair, p.lifecycleRevision, p.operationRevision);
      readinessProofs := readinessProofs + [Issued(proof, p.record, answer.value, None)];
    }

    method PromoteDataReady(key: string, proof: nat) returns (ok: bool)
      requires Valid()
      modifies this
      ensures Valid() && ok == Registry.PromoteDataReady(old(View()), key, proof).Some?
      ensures View() == Registry.PromoteDataReady(old(View()), key, proof).GetOr(old(View()))
    {
      hide RegistryTheorems.Consistent, Promoted, ValidTransition;
      RegistryTheorems.ApplyKeeps(View(), DoPromote(key, proof));
      if proof >= |readinessProofs| || !(key in byUnderlying && byUnderlying[key] < |records|) {
        return false;
      }
      var issued, id := readinessProofs[proof], byUnderlying[key];
      var record := records[id];
      if record.instrument.None? || issued.proof.underlying != key || issued.proof.pair != record.instrument.value.pair {
        return false;
      }
      if issued.promoted.Some? && id == issued.promoted.value.record && record.lifecycle == DATA_READY && record.dataReadiness.Some?
         && record.dataReadiness.value.evidence == proof && Latest(revisions, key) == issued.promoted.value.operationRevision {
        return true;
      }
      if id != issued.record || Latest(revisions, key) != issued.proof.operationRevision
         || Latest(lifecycleRevisions, key) != issued.proof.lifecycleRevision {
        return false;
      }
      if !ValidTransition(record.lifecycle, DATA_READY, record.profile.liveEnabled) {
        return false;
      }
      InstallPromoted(key, proof);
      return true;
    }

    method InstallPromoted(key: string, proof: nat)
      requires Matches(View(), key, proof)
      modifies this
      ensures View() == Promoted(old(View()), key, proof)
    {
      hide Notified;
      var issued, record := readinessProofs[proof], records[byUnderlying[key]];
      byUnderlying, byPair := byUnderlying[key := |records|], byPair[issued.proof.pair := |records|];
      readinessProofs := readinessProofs[proof := issued.(promoted := Some(Promotion(|records|, Latest(revisions, key) + 1)))];
      records := records + [record.(lifecycle := DATA_READY, instrument := Some(issued.instrument))];
      NotifyChanged(key, Some(proof));
    }
  }
}
