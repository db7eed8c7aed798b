/** Whole histories of the registry: fencing by revisions, and what a readiness proof certifies. */
module RegistryHistories {
  import opened Common
  import opened Registry
  import opened RegistryTheorems

  // -------------------------------------------------------------- revisions

  lemma {:induction false} NotifiedRises(s: State, key: string, readiness: Option<nat>)
    ensures Risen(s, Notified(s, key, readiness)) && Latest(Notified(s, key, readiness).revisions, key) == Latest(s.revisions, key) + 1
  {
  }

  /** Neither kind of revision ever falls, for any coin, whatever is done. */
  lemma {:induction false} ApplyRises(s: State, op: Operation)
    ensures Risen(s, Apply(s, op))
  {
    hide Trim, Installed, TransitionLifecycle, PromoteDataReady;
    match op
    case DoRegister(r) => InstalledRises(s, r);
    case DoReplace(r) =>
      if r.instrument.Some? {
        UnfiledRises(s, r);
      }
    case DoTransition(key, next) => TransitionRises(s, key, next);
    case DoPromote(key, proof) => PromotionRises(s, key, proof);
    case DoClear =>
    case DoBeginDiscovery(_) =>
    case DoPrepare(_) =>
    case DoSettle(_, _) =>
  }

  lemma {:induction false} TransitionRises(s: State, key: string, next: Lifecycle)
    ensures Risen(s, TransitionLifecycle(s, key, next).GetOr(s))
  {
    hide Notified, AuthorizedTransition;
    if Known(s, key) {
      NotifiedRises(s.(records := s.records[s.byUnderlying[key] := Current(s, key).(lifecycle := next)]), key, None);
      NotifiedRises(s, key, None);
    }
  }

  lemma {:induction false} PromotionRises(s: State, key: string, proof: nat)
    ensures Risen(s, PromoteDataReady(s, key, proof).GetOr(s))
  {
    hide Notified, PromotesAfresh, AlreadyPromoted;
    if Matches(s, key, proof) {
      NotifiedRises(Repointed(s, key, proof), key, Some(proof));
    }
  }

  lemma {:induction false} InstalledRises(s: State, r: Runtime)
    ensures Risen(s, Installed(s, r))
  {
    hide Trim;
  }

  lemma {:induction false} UnfiledRises(s: State, r: Runtime)
    requires r.instrument.Some?
    ensures Risen(s, Installed(Unfiled(s, r.profile.underlying, Trim(r.instrument.value.pair)), r))
  {
    hide Installed, Trim;
    InstalledRises(Unfiled(s, r.profile.underlying, Trim(r.instrument.value.pair)), r);
  }

  /** What is registered under a symbol: nothing, or a record with its identity. */
  function EntryOf(s: State, key: string): Option<(nat, Record)> {
    if Known(s, key) then Some((s.byUnderlying[key], Current(s, key))) else None
  }

  ghost predicate FiledIfPresent(s: State, key: string) {
    key in s.byUnderlying ==> Known(s, key) && Current(s, key).profile.underlying == key
  }

  lemma {:induction false} NotifiedElsewhere(s: State, key: string, readiness: Option<nat>, k: string)
    requires FiledIfPresent(s, key) && FiledIfPresent(s, k) && k != key
    ensures EntryOf(Notified(s, key, readiness), k) == EntryOf(s, k)
  {
  }

  lemma {:induction false} InstalledElsewhere(s: State, r: Runtime, k: string)
    requires FiledIfPresent(s, k) && k != r.profile.underlying
    ensures EntryOf(Installed(s, r), k) == EntryOf(s, k)
  {
    hide Trim, Notified;
    var s1 := s.(records := s.records + [NewRecord(r)], byUnderlying := s.byUnderlying[r.profile.underlying := |s.records|],
                 byPair := if r.instrument.Some? then s.byPair[Trim(r.instrument.value.pair) := |s.records|] else s.byPair);
    NotifiedElsewhere(s1, r.profile.underlying, None, k);
  }

  lemma {:induction false} TransitionElsewhere(s: State, key: string, next: Lifecycle, k: string)
    requires FiledIfPresent(s, key) && FiledIfPresent(s, k) && k != key
    ensures EntryOf(TransitionLifecycle(s, key, next).GetOr(s), k) == EntryOf(s, k)
  {
    hide Notified, AuthorizedTransition;
    if Known(s, key) {
      var s1 := s.(records := s.records[s.byUnderlying[key] := Current(s, key).(lifecycle := next)]);
      NotifiedElsewhere(s, key, None, k);
      NotifiedElsewhere(s1, key, None, k);
    }
  }

  lemma {:induction false} PromotedElsewhere(s: State, key: string, proof: nat, k: string)
    requires Matches(s, key, proof) && FiledIfPresent(s, key) && FiledIfPresent(s, k) && k != key
    ensures EntryOf(Promoted(s, key, proof), k) == EntryOf(s, k)
  {
    hide Notified;
    NotifiedElsewhere(Repointed(s, key, proof), key, Some(proof), k);
  }

  /** The coin an operation is about. */
  predicate Concerns(op: Operation, key: string) {
    match op
    case DoRegister(r) => r.profile.underlying == key
    case DoReplace(r) => r.profile.underlying == key
    case DoTransition(k, _) => k == key
    case DoPromote(k, _) => k == key
    case DoClear => true
    case _ => false
  }

  lemma {:induction false} ElsewhereNothingChanges(s: State, op: Operation, key: string)
    requires Sound(s) && !Concerns(op, key)
    ensures EntryOf(Apply(s, op), key) == EntryOf(s, key)
  {
    assert forall k <- s.byUnderlying :: FiledRight(s, k);
    hide Trim, Installed, Promoted, TransitionLifecycle, Sound, PromotesAfresh, AlreadyPromoted;
    match op
    case DoTransition(k, next) => TransitionElsewhere(s, k, next, key);
    case DoRegister(r) => InstalledElsewhere(s, r, key);
    case DoReplace(r) =>
      if r.instrument.Some? {
        InstalledElsewhere(Unfiled(s, r.profile.underlying, Trim(r.instrument.value.pair)), r, key);
      }
    case DoPromote(k, proof) =>
      if Matches(s, k, proof) {
        PromotedElsewhere(s, k, proof, key);
      }
    case DoBeginDiscovery(_) =>
    case DoPrepare(_) =>
    case DoSettle(_, _) =>
  }

  lemma {:induction false} ConcernRaises(s: State, op: Operation, key: string)
    requires Sound(s) && Concerns(op, key)
    ensures Apply(s, op) == s || Latest(s.revisions, key) < Latest(Apply(s, op).revisions, key)
            || (key !in s.byUnderlying && key !in Apply(s, op).byUnderlying)
  {
    assert key in s.byUnderlying ==> FiledRight(s, key);
    hide Trim, Sound, PromotesAfresh, AlreadyPromoted;
  }

  /** Nothing about a coin changes without its revision rising. */
  lemma {:induction false} ChangeRaisesRevision(s: State, op: Operation, key: string)
    requires Sound(s)
    ensures EntryOf(Apply(s, op), key) == EntryOf(s, key) || Latest(s.revisions, key) < Latest(Apply(s, op).revisions, key)
  {
    hide Sound, Apply;
    if Concerns(op, key) {
      ConcernRaises(s, op, key);
    } else {
      ElsewhereNothingChanges(s, op, key);
    }
  }

  // ------------------------------------------------------------------ lifecycle

  /** The promotion ladder, rung by rung. A disabled coin is off it. */
  function Rung(l: Lifecycle): int {
    match l
    case DISABLED => -1
    case DISCOVERED => 0
    case DATA_LOADING => 1
    case DATA_READY => 2
    case BACKTESTING => 3
    case RESEARCH_APPROVED => 4
    case PAPER => 5
    case PAPER_APPROVED => 6
    case SHADOW => 7
    case LIVE_CANDIDATE => 8
    case LIVE => 9
  }

  /** One step: a rung up, where LIVE needs the profile's consent; a rung back, but neither to DISCOVERED nor from LIVE; or off
      the ladder. */
  predicate OneStep(current: Lifecycle, next: Lifecycle, liveEnabled: bool) {
    && current != DISABLED
    && (|| next == DISABLED
        || (Rung(next) == Rung(current) + 1 && (next == LIVE ==> liveEnabled))
        || (Rung(next) == Rung(current) - 1 && next != DISCOVERED && current != LIVE))
  }

  /** The rungs that no coin may be promoted to. */
  predicate PastPaper(l: Lifecycle) {
    l == PAPER_APPROVED || l == SHADOW || l == LIVE_CANDIDATE || l == LIVE
  }

  /** The table allows single steps and forbids every jump; authorization stops at PAPER. */
  lemma {:induction false} OnlySingleSteps(current: Lifecycle, next: Lifecycle, liveEnabled: bool)
    ensures ValidTransition(current, next, liveEnabled) <==> OneStep(current, next, liveEnabled)
    ensures AuthorizedTransition(current, next, liveEnabled) <==> OneStep(current, next, liveEnabled) && !PastPaper(next)
  {
    match current {
      case DISCOVERED =>
      case DATA_LOADING =>
      case DATA_READY =>
      case BACKTESTING =>
      case RESEARCH_APPROVED =>
      case PAPER =>
      case PAPER_APPROVED =>
      case SHADOW =>
      case LIVE_CANDIDATE =>
      case LIVE =>
      case DISABLED =>
    }
  }

  /** A transition is granted exactly for a registered coin, by a single step not past PAPER and not to DATA_READY, or if the
      coin is disabled and is to be so. */
  lemma {:induction false} GrantedExactly(s: State, key: string, next: Lifecycle)
    ensures TransitionLifecycle(s, key, next).Some? <==>
              && Known(s, key) && next != DATA_READY
              && var r := s.records[s.byUnderlying[key]];
                 (r.lifecycle == DISABLED == next) || (OneStep(r.lifecycle, next, r.profile.liveEnabled) && !PastPaper(next))
    ensures TransitionLifecycle(s, key, next).Some? ==>
              var s' := TransitionLifecycle(s, key, next).value;
              s'.byUnderlying == s.byUnderlying && Known(s', key) && s'.records[s'.byUnderlying[key]].lifecycle == next
  {
    if Known(s, key) {
      OnlySingleSteps(Current(s, key).lifecycle, next, Current(s, key).profile.liveEnabled);
    }
    hide OneStep, AuthorizedTransition, ValidTransition;
  }

  /** How the lifecycle under a symbol may come about: it stays, it makes a single step not past PAPER, or the coin was
      registered anew at its start; and it becomes DATA_READY in one way only, from next to it by a proof that is still
      current. */
  lemma {:induction false} LifecycleFollowsGraph(s: State, op: Operation, key: string)
    requires Sound(s) && Known(Apply(s, op), key)
    ensures var s' := Apply(s, op);
            var next := s'.records[s'.byUnderlying[key]].lifecycle;
            || (Known(s, key) && s'.byUnderlying[key] == s.byUnderlying[key] && next == s.records[s.byUnderlying[key]].lifecycle)
            || (op.DoTransition? && op.key == key && Known(s, key) && next == op.next != DATA_READY && !PastPaper(next)
                && OneStep(s.records[s.byUnderlying[key]].lifecycle, next, s.records[s.byUnderlying[key]].profile.liveEnabled))
            || ((op.DoRegister? || op.DoReplace?) && (next == DISCOVERED || next == DISABLED))
            || (op.DoPromote? && op.key == key && PromotesAfresh(s, key, op.proof) && next == DATA_READY
                && s.records[s.byUnderlying[key]].lifecycle in {DATA_LOADING, BACKTESTING})
  {
    var s' := Apply(s, op);
    var next := Current(s', key).lifecycle;
    LifecycleFollowsTable(s, op, key);
    if Known(s, key) {
      OnlySingleSteps(Current(s, key).lifecycle, next, Current(s, key).profile.liveEnabled);
    }
    if op.DoPromote? && op.key == key && PromotesAfresh(s, key, op.proof) {
      ReadyFromNextToIt(s, key, op.proof);
    }
    hide Apply, Sound, OneStep, AuthorizedTransition, ValidTransition, PromotesAfresh;
  }

  lemma {:induction false} ReadyFromNextToIt(s: State, key: string, proof: nat)
    requires PromotesAfresh(s, key, proof)
    ensures Current(s, key).lifecycle in {DATA_LOADING, BACKTESTING}
  {
  }

  lemma {:induction false} LifecycleFollowsTable(s: State, op: Operation, key: string)
    requires Sound(s) && Known(Apply(s, op), key)
    ensures var s' := Apply(s, op);
            var next := Current(s', key).lifecycle;
            || (Known(s, key) && s'.byUnderlying[key] == s.byUnderlying[key] && next == Current(s, key).lifecycle)
            || (op.DoTransition? && op.key == key && Known(s, key) && next == op.next != DATA_READY
                && AuthorizedTransition(Current(s, key).lifecycle, next, Current(s, key).profile.liveEnabled))
            || ((op.DoRegister? || op.DoReplace?) && (next == DISCOVERED || next == DISABLED))
            || (op.DoPromote? && op.key == key && PromotesAfresh(s, key, op.proof) && next == DATA_READY)
  {
    if Concerns(op, key) {
      ConcernFollowsGraph(s, op, key);
    } else {
      ElsewhereNothingChanges(s, op, key);
    }
    hide Sound, Apply, AuthorizedTransition, PromotesAfresh, Concerns;
  }

  lemma {:induction false} ConcernFollowsGraph(s: State, op: Operation, key: string)
    requires Sound(s) && Concerns(op, key) && Known(Apply(s, op), key)
    ensures var s' := Apply(s, op);
            var next := Current(s', key).lifecycle;
            || (Known(s, key) && s'.byUnderlying[key] == s.byUnderlying[key] && next == Current(s, key).lifecycle)
            || (op.DoTransition? && op.key == key && Known(s, key) && next == op.next != DATA_READY
                && AuthorizedTransition(Current(s, key).lifecycle, next, Current(s, key).profile.liveEnabled))
            || ((op.DoRegister? || op.DoReplace?) && (next == DISCOVERED || next == DISABLED))
            || (op.DoPromote? && op.key == key && PromotesAfresh(s, key, op.proof) && next == DATA_READY)
  {
    assert key in s.byUnderlying ==> FiledRight(s, key);
    hide Trim, Sound, AuthorizedTransition, PromotesAfresh, AlreadyPromoted;
  }

  // ------------------------------------------------------------------ histories

  ghost predicate History(ss: seq<State>, ops: seq<Operation>) {
    && |ss| == |ops| + 1 && ss[0] == EMPTY
    && forall i :: 0 <= i < |ops| ==> ss[i + 1] == Apply(ss[i], ops[i])
  }

  /** In every history, at every moment, the registry is sound and its two indexes describe the same records one to one. */
  lemma {:induction false} IndexesStayTogether(ss: seq<State>, ops: seq<Operation>, i: nat)
    requires History(ss, ops) && i < |ss|
    ensures Sound(ss[i]) && Indexed(ss[i])
  {
    if i == 0 {
      EmptyIsSound();
    } else {
      IndexesStayTogether(ss, ops, i - 1);
      hide Sound, Indexed, Apply;
      ApplyKeeps(ss[i - 1], ops[i - 1]);
    }
  }

  lemma {:induction false} HistoryRises(ss: seq<State>, ops: seq<Operation>, i: nat, j: nat)
    requires History(ss, ops) && i <= j < |ss|
    ensures Risen(ss[i], ss[j])
    decreases j
  {
    hide Apply;
    if i < j {
      HistoryRises(ss, ops, i, j - 1);
      ApplyRises(ss[j - 1], ops[j - 1]);
    }
  }

  /** In every history no coin is ever past PAPER, and it is DATA_READY exactly while it carries evidence of its latest
      lifecycle revision. */
  lemma {:induction false} NeverPastPaper(ss: seq<State>, ops: seq<Operation>, i: nat, key: string)
    requires History(ss, ops) && i < |ss| && Known(ss[i], key)
    ensures !PastPaper(ss[i].records[ss[i].byUnderlying[key]].lifecycle) && ReadyWithEvidence(ss[i], key)
  {
    IndexesStayTogether(ss, ops, i);
    assert Current(ss[i], key) in ss[i].records;
  }

  // -------------------------------------------------------------------- proofs

  lemma {:induction false} IssuedStays(s: State, op: Operation, proof: nat)
    requires proof < |s.issued|
    ensures proof < |Apply(s, op).issued| && Apply(s, op).issued[proof].proof == s.issued[proof].proof
  {
    hide Trim, AuthorizedTransition, ValidTransition;
  }

  lemma {:induction false} ProofStays(ss: seq<State>, ops: seq<Operation>, i: nat, j: nat, proof: nat)
    requires History(ss, ops) && i <= j < |ss| && proof < |ss[i].issued|
    ensures proof < |ss[j].issued| && ss[j].issued[proof].proof == ss[i].issued[proof].proof
    decreases j
  {
    hide Apply;
    if i < j {
      ProofStays(ss, ops, i, j - 1, proof);
      IssuedStays(ss[j - 1], ops[j - 1], proof);
    }
  }

  lemma {:induction false} PromotionMovesOn(s: State, key: string, proof: nat)
    requires PromotesAfresh(s, key, proof)
    ensures s.issued[proof].proof.underlying == key && s.issued[proof].proof.operationRevision == Latest(s.revisions, key)
    ensures Latest(Apply(s, DoPromote(key, proof)).revisions, key) == Latest(s.revisions, key) + 1
  {
    hide Notified;
    NotifiedRises(Repointed(s, key, proof), key, Some(proof));
  }

  lemma {:induction false} CurrentRevision(s: State, key: string, proof: nat)
    requires PromotesAfresh(s, key, proof)
    ensures s.issued[proof].proof.underlying == key && s.issued[proof].proof.operationRevision == Latest(s.revisions, key)
  {
  }

  /** A proof promotes at most once, ever: also not after the coin was rediscovered or the registry cleared. */
  lemma {:induction false} PromotesAtMostOnce(ss: seq<State>, ops: seq<Operation>, i: nat, j: nat)
    requires History(ss, ops) && i < j < |ops| && ops[i].DoPromote? && ops[j].DoPromote? && ops[i].proof == ops[j].proof
    requires PromotesAfresh(ss[i], ops[i].key, ops[i].proof)
    ensures !PromotesAfresh(ss[j], ops[j].key, ops[j].proof)
  {
    var proof := ops[i].proof;
    PromotionMovesOn(ss[i], ops[i].key, proof);
    HistoryRises(ss, ops, i + 1, j);
    ProofStays(ss, ops, i, j, proof);
    hide Apply, History;
    if PromotesAfresh(ss[j], ops[j].key, proof) {
      CurrentRevision(ss[j], ops[j].key, proof);
    }
  }

  /** While a coin's revision stands still, so does the coin. */
  lemma {:induction false} Undisturbed(ss: seq<State>, ops: seq<Operation>, i: nat, j: nat, key: string)
    requires History(ss, ops) && i <= j < |ss| && Latest(ss[i].revisions, key) == Latest(ss[j].revisions, key)
    ensures EntryOf(ss[j], key) == EntryOf(ss[i], key)
    decreases j
  {
    hide Apply, EntryOf, Sound, Indexed;
    if i < j {
      HistoryRises(ss, ops, i, j - 1);
      ApplyRises(ss[j - 1], ops[j - 1]);
      IndexesStayTogether(ss, ops, j - 1);
      Undisturbed(ss, ops, i, j - 1, key);
      ChangeRaisesRevision(ss[j - 1], ops[j - 1], key);
    }
  }

  /** A successful `prepareDataReadiness` takes a revision of its own. */
  lemma {:induction false} PreparationTakesRevision(s: State, key: string)
    requires Prepare(s, key).Some?
    ensures var s' := Apply(s, DoPrepare(key));
            && s'.preparations == s.preparations + [Preparation(key, s.byUnderlying[key], Latest(s.lifecycleRevisions, key),
                                                               Latest(s.revisions, key) + 1, false)]
            && Latest(s'.revisions, key) == Latest(s.revisions, key) + 1 && EntryOf(s', key) == EntryOf(s, key)
  {
  }

  /** From the start of the initialization to the promotion that used its proof, nothing about the coin changed: neither
      its record nor its lifecycle, nor was there a rival initialization. */
  lemma {:induction false} ProofCertifiesStillness(ss: seq<State>, ops: seq<Operation>, i: nat, j: nat, k: nat)
    requires History(ss, ops) && i < k <= j < |ops| && ops[i].DoPrepare? && Prepare(ss[i], ops[i].key).Some?
    requires ops[j].DoPromote? && ops[j].key == ops[i].key && PromotesAfresh(ss[j], ops[j].key, ops[j].proof)
    requires ss[j].issued[ops[j].proof].proof.operationRevision == Latest(ss[i].revisions, ops[i].key) + 1
    ensures EntryOf(ss[k], ops[i].key) == EntryOf(ss[i], ops[i].key)
    ensures i < k < j && ops[k].DoPrepare? && ops[k].key == ops[i].key ==> Prepare(ss[k], ops[k].key).None?
  {
    var key := ops[i].key;
    PreparationTakesRevision(ss[i], key);
    CurrentRevision(ss[j], key, ops[j].proof);
    HistoryRises(ss, ops, i + 1, k);
    HistoryRises(ss, ops, k, j);
    Undisturbed(ss, ops, i + 1, k, key);
    if i < k < j && ops[k] == DoPrepare(key) && Prepare(ss[k], key).Some? {
      PreparationTakesRevision(ss[k], key);
      HistoryRises(ss, ops, k + 1, j);
    }
  }

  /** An initialization that was overtaken by a later one of the same coin can no longer issue a proof. */
  lemma {:induction false} OvertakenNeverIssues(ss: seq<State>, ops: seq<Operation>, i: nat, j: nat, k: nat)
    requires History(ss, ops) && i < j < k < |ss| && ops[i].DoPrepare? && ops[j] == DoPrepare(ops[i].key)
    requires Prepare(ss[i], ops[i].key).Some? && Prepare(ss[j], ops[j].key).Some?
    ensures var p := ss[i + 1].preparations[|ss[i].preparations|];
            !Owns(ss[k], p)
  {
    var key := ops[i].key;
    PreparationTakesRevision(ss[i], key);
    PreparationTakesRevision(ss[j], key);
    HistoryRises(ss, ops, i + 1, j);
    HistoryRises(ss, ops, j + 1, k);
    hide Prepare;
  }

  /** A coin whose pair came with a space around it is never promoted, although it may be registered. */
  lemma {:induction false} SpacedPairIsNeverPromoted(ss: seq<State>, ops: seq<Operation>, i: nat, key: string, proof: nat)
    requires History(ss, ops) && i < |ss| && Discovered(ss[i], key)
    requires Trim(Current(ss[i], key).instrument.value.pair) != Current(ss[i], key).instrument.value.pair
    ensures !PromotesAfresh(ss[i], key, proof)
  {
    IndexesStayTogether(ss, ops, i);
    hide Trim, Sound, Indexed;
    if PromotesAfresh(ss[i], key, proof) {
      PromotionKeepsIndexes(ss[i], key, proof);
    }
  }
}
