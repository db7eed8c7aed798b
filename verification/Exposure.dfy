/** Model of src/risk/exposure.ts: how much room the exposure caps leave, and why they refuse. */
module Exposure {
  import opened Common

  datatype Reservation = Reservation(instanceId: string, strategyId: string, strategyVersion: string, parameterHash: string,
                                     notional: real, count: int)

  datatype Pending =
    | UNKNOWN
    | KNOWN(global: real, perPair: map<string, real>, perStrategy: map<string, real>, long: real, short: real,
            count: int, reservations: seq<Reservation>)

  datatype Snapshot = Snapshot(globalOpen: real, perPairOpen: map<string, real>, perStrategyOpen: map<string, real>,
                               openPositions: int, pending: Pending)

  datatype Candidate = Candidate(pair: string, strategyId: string, strategyVersion: string, parameterHash: string, instanceId: string)

  datatype Policy = Policy(globalMaxOpenNotional: real, maxConcurrentExposure: real, pairMaxExposure: real, maxCoinExposure: real,
                           maxStrategyExposure: real, globalMaxConcurrentPositions: int, maxConcurrentPositions: int,
                           pairMaxConcurrentPositions: Option<int>)

  datatype Reason =
    | EXPOSURE_STATE_UNAVAILABLE | PENDING_EXPOSURE_UNKNOWN | DECISION_IDENTITY_MISMATCH
    | GLOBAL_EXPOSURE_LIMIT | PAIR_EXPOSURE_LIMIT | STRATEGY_EXPOSURE_LIMIT | MAX_CONCURRENT_POSITIONS

  function At(m: map<string, real>, key: string): real {
    if key in m then m[key] else 0.0
  }

  function Min(x: real, y: real): real {
    if x < y then x else y
  }

  function MinInt(x: int, y: int): int {
    if x < y then x else y
  }

  predicate NonNegative(m: map<string, real>) {
    forall key <- m :: m[key] >= 0.0
  }

  /** No child of an aggregate exceeds it. */
  predicate Covers(parent: real, children: map<string, real>) {
    forall key <- children :: children[key] <= parent
  }

  /** `exposureStateReasons` finds nothing wrong with the settled part... */
  predicate OpenStateValid(s: Snapshot) {
    && s.openPositions >= 0
    && s.globalOpen >= 0.0 && NonNegative(s.perPairOpen) && NonNegative(s.perStrategyOpen)
    && Covers(s.globalOpen, s.perPairOpen) && Covers(s.globalOpen, s.perStrategyOpen)
  }

  /** ...nor with the pending part, if it is known. */
  predicate PendingValid(p: Pending) {
    p.KNOWN? ==>
      && p.global >= 0.0 && NonNegative(p.perPair) && NonNegative(p.perStrategy) && p.count >= 0 && p.long >= 0.0 && p.short >= 0.0
      && (forall r <- p.reservations :: r.notional >= 0.0 && r.count >= 0 && r.notional <= p.global)
      && Covers(p.global, p.perPair) && Covers(p.global, p.perStrategy)
  }

  predicate StateValid(s: Snapshot) {
    OpenStateValid(s) && PendingValid(s.pending)
  }

  function GlobalCap(policy: Policy): real {
    Min(policy.globalMaxOpenNotional, policy.maxConcurrentExposure)
  }

  function PairCap(policy: Policy): real {
    Min(policy.pairMaxExposure, policy.maxCoinExposure)
  }

  function PositionCap(policy: Policy): int {
    MinInt(MinInt(policy.globalMaxConcurrentPositions, policy.maxConcurrentPositions),
           policy.pairMaxConcurrentPositions.GetOr(policy.globalMaxConcurrentPositions))
  }

  datatype Headroom = Headroom(global: real, pair: real, strategy: real)

  /** `exposureHeadroom`. */
  function HeadroomFor(s: Snapshot, c: Candidate, policy: Policy): Option<Headroom> {
    if s.pending.UNKNOWN? || !StateValid(s) then None
    else Some(Headroom(GlobalCap(policy) - s.globalOpen - s.pending.global,
                       PairCap(policy) - At(s.perPairOpen, c.pair) - At(s.pending.perPair, c.pair),
                       policy.maxStrategyExposure - At(s.perStrategyOpen, c.strategyId) - At(s.pending.perStrategy, c.strategyId)))
  }

  /** The cap on one aggregate refuses: `open` alone exhausts it, or nothing of what is left after `pending` covers the request. */
  predicate Refuses(cap: real, open: real, pending: Option<real>, requested: Option<real>) {
    open >= 0.0 &&
    var current := cap - open;
    || current <= 0.0
    || (pending.Some? && pending.value >= 0.0 &&
        if requested.None? then current - pending.value <= 0.0 else requested.value > current - pending.value)
  }


  /** Reasons that the reservations of the snapshot contradict the candidate's lineage or each other. */
  function ReservationReasons(rs: seq<Reservation>, c: Candidate): seq<Reason> {
    if rs == [] then []
    else
      var front, r := rs[..|rs| - 1], rs[|rs| - 1];
      ReservationReasons(front, c)
      + (if exists earlier <- front :: earlier.instanceId == r.instanceId then [EXPOSURE_STATE_UNAVAILABLE] else [])
      + (if r.instanceId == c.instanceId && (r.strategyId != c.strategyId || r.strategyVersion != c.strategyVersion || r.parameterHash != c.parameterHash)
         then [DECISION_IDENTITY_MISMATCH] else [])
  }

  predicate PositionsRefuse(s: Snapshot, policy: Policy) {
    s.openPositions >= 0 &&
    (|| s.openPositions + 1 > PositionCap(policy)
     || (s.pending.KNOWN? && s.pending.count >= 0 && s.openPositions + s.pending.count + 1 > PositionCap(policy)))
  }

  /** `exposureReasons`. */
  function Reasons(snapshot: Option<Snapshot>, c: Candidate, policy: Policy, requested: Option<real>): seq<Reason> {
    if snapshot.None? then [EXPOSURE_STATE_UNAVAILABLE]
    else
      var s := snapshot.value;
      (if StateValid(s) then [] else [EXPOSURE_STATE_UNAVAILABLE])
      + (if s.pending.UNKNOWN? then [PENDING_EXPOSURE_UNKNOWN] else ReservationReasons(s.pending.reservations, c))
      + (if Refuses(GlobalCap(policy), s.globalOpen, if s.pending.KNOWN? then Some(s.pending.global) else None, requested)
         then [GLOBAL_EXPOSURE_LIMIT] else [])
      + (if Refuses(PairCap(policy), At(s.perPairOpen, c.pair), if s.pending.KNOWN? then Some(At(s.pending.perPair, c.pair)) else None, requested)
         then [PAIR_EXPOSURE_LIMIT] else [])
      + (if Refuses(policy.maxStrategyExposure, At(s.perStrategyOpen, c.strategyId),
                    if s.pending.KNOWN? then Some(At(s.pending.perStrategy, c.strategyId)) else None, requested)
         then [STRATEGY_EXPOSURE_LIMIT] else [])
      + (if PositionsRefuse(s, policy) then [MAX_CONCURRENT_POSITIONS] else [])
  }

  // -------------------------------------------------------------- theorems

  /** What a snapshot must be like to be believed: nothing negative, and no part larger than its whole. */
  predicate Coherent(s: Snapshot) {
    && s.openPositions >= 0 && s.globalOpen >= 0.0
    && (forall key <- s.perPairOpen :: 0.0 <= s.perPairOpen[key] <= s.globalOpen)
    && (forall key <- s.perStrategyOpen :: 0.0 <= s.perStrategyOpen[key] <= s.globalOpen)
    && (s.pending.KNOWN? ==>
          && s.pending.global >= 0.0 && s.pending.long >= 0.0 && s.pending.short >= 0.0 && s.pending.count >= 0
          && (forall key <- s.pending.perPair :: 0.0 <= s.pending.perPair[key] <= s.pending.global)
          && (forall key <- s.pending.perStrategy :: 0.0 <= s.pending.perStrategy[key] <= s.pending.global)
          && (forall r <- s.pending.reservations :: 0.0 <= r.notional <= s.pending.global && r.count >= 0))
  }

  predicate Repeats(rs: seq<Reservation>) {
    exists i, j :: 0 <= i < j < |rs| && rs[i].instanceId == rs[j].instanceId
  }

  /** The candidate's instance holds a reservation of another strategy, version or parameter set. */
  predicate OtherLineage(rs: seq<Reservation>, c: Candidate) {
    exists r <- rs :: r.instanceId == c.instanceId &&
      (r.strategyId != c.strategyId || r.strategyVersion != c.strategyVersion || r.parameterHash != c.parameterHash)
  }

  /** A cap is exhausted by what is open, or does not cover the request on top of what is open and pending; values that are
      negative or unknown are not held against it. */
  predicate Exceeded(cap: real, open: real, pending: Option<real>, requested: Option<real>) {
    open >= 0.0 &&
    (|| cap <= open
     || (pending.Some? && pending.value >= 0.0 &&
         if requested.None? then cap <= open + pending.value else cap < open + pending.value + requested.value))
  }

  predicate TooMany(limit: int, open: int, pending: Option<int>) {
    open >= 0 && (limit < open + 1 || (pending.Some? && pending.value >= 0 && limit < open + pending.value + 1))
  }

  /** Each limit of the policy against what the snapshot records for the candidate. */
  predicate GlobalExceeded(s: Snapshot, policy: Policy, requested: Option<real>) {
    var pending := if s.pending.KNOWN? then Some(s.pending.global) else None;
    Exceeded(policy.globalMaxOpenNotional, s.globalOpen, pending, requested)
    || Exceeded(policy.maxConcurrentExposure, s.globalOpen, pending, requested)
  }

  predicate PairExceeded(s: Snapshot, pair: string, policy: Policy, requested: Option<real>) {
    var open := if pair in s.perPairOpen then s.perPairOpen[pair] else 0.0;
    var pending := if s.pending.UNKNOWN? then None
                   else if pair in s.pending.perPair then Some(s.pending.perPair[pair]) else Some(0.0);
    Exceeded(policy.pairMaxExposure, open, pending, requested) || Exceeded(policy.maxCoinExposure, open, pending, requested)
  }

  predicate StrategyExceeded(s: Snapshot, strategyId: string, policy: Policy, requested: Option<real>) {
    var open := if strategyId in s.perStrategyOpen then s.perStrategyOpen[strategyId] else 0.0;
    var pending := if s.pending.UNKNOWN? then None
                   else if strategyId in s.pending.perStrategy then Some(s.pending.perStrategy[strategyId]) else Some(0.0);
    Exceeded(policy.maxStrategyExposure, open, pending, requested)
  }

  predicate PositionsExceeded(s: Snapshot, policy: Policy) {
    var pending := if s.pending.KNOWN? then Some(s.pending.count) else None;
    || TooMany(policy.globalMaxConcurrentPositions, s.openPositions, pending)
    || TooMany(policy.maxConcurrentPositions, s.openPositions, pending)
    || (policy.pairMaxConcurrentPositions.Some? && TooMany(policy.pairMaxConcurrentPositions.value, s.openPositions, pending))
  }

  /** Each reason is given exactly when what it names is the case. */
  lemma {:induction false} ReasonsAreExact(s: Snapshot, c: Candidate, policy: Policy, requested: Option<real>)
    ensures var reasons := Reasons(Some(s), c, policy, requested);
            && (EXPOSURE_STATE_UNAVAILABLE in reasons <==> !Coherent(s) || (s.pending.KNOWN? && Repeats(s.pending.reservations)))
            && (PENDING_EXPOSURE_UNKNOWN in reasons <==> s.pending.UNKNOWN?)
            && (DECISION_IDENTITY_MISMATCH in reasons <==> s.pending.KNOWN? && OtherLineage(s.pending.reservations, c))
            && (GLOBAL_EXPOSURE_LIMIT in reasons <==> GlobalExceeded(s, policy, requested))
            && (PAIR_EXPOSURE_LIMIT in reasons <==> PairExceeded(s, c.pair, policy, requested))
            && (STRATEGY_EXPOSURE_LIMIT in reasons <==> StrategyExceeded(s, c.strategyId, policy, requested))
            && (MAX_CONCURRENT_POSITIONS in reasons <==> PositionsExceeded(s, policy))
  {
    hide Reasons, Only, Coherent, Repeats, OtherLineage, GlobalExceeded, PairExceeded, StrategyExceeded, PositionsExceeded, ReservationReasons;
    ReasonsAreParts(s, c, policy, requested);
    var reserved := if s.pending.UNKNOWN? then [PENDING_EXPOSURE_UNKNOWN] else ReservationReasons(s.pending.reservations, c);
    if s.pending.KNOWN? {
      ReservationReasonsAreExact(s.pending.reservations, c);
    }
    SixParts(Only(!Coherent(s), EXPOSURE_STATE_UNAVAILABLE), reserved, Only(GlobalExceeded(s, policy, requested), GLOBAL_EXPOSURE_LIMIT),
             Only(PairExceeded(s, c.pair, policy, requested), PAIR_EXPOSURE_LIMIT),
             Only(StrategyExceeded(s, c.strategyId, policy, requested), STRATEGY_EXPOSURE_LIMIT),
             Only(PositionsExceeded(s, policy), MAX_CONCURRENT_POSITIONS));
  }

  function Only(holds: bool, reason: Reason): (r: seq<Reason>)
    ensures forall x :: x in r <==> holds && x == reason
  {
    if holds then [reason] else []
  }

  lemma {:induction false} ReasonsAreParts(s: Snapshot, c: Candidate, policy: Policy, requested: Option<real>)
    ensures Reasons(Some(s), c, policy, requested) ==
            Only(!Coherent(s), EXPOSURE_STATE_UNAVAILABLE)
            + (if s.pending.UNKNOWN? then [PENDING_EXPOSURE_UNKNOWN] else ReservationReasons(s.pending.reservations, c))
            + Only(GlobalExceeded(s, policy, requested), GLOBAL_EXPOSURE_LIMIT)
            + Only(PairExceeded(s, c.pair, policy, requested), PAIR_EXPOSURE_LIMIT)
            + Only(StrategyExceeded(s, c.strategyId, policy, requested), STRATEGY_EXPOSURE_LIMIT)
            + Only(PositionsExceeded(s, policy), MAX_CONCURRENT_POSITIONS)
  {
    hide Coherent, StateValid, Repeats, OtherLineage, GlobalExceeded, PairExceeded, StrategyExceeded, PositionsExceeded, Refuses, PositionsRefuse,
      GlobalCap, PairCap, At, ReservationReasons;
    CoherentIsValid(s);
    GlobalAgrees(s, policy, requested);
    PairAgrees(s, c.pair, policy, requested);
    StrategyAgrees(s, c.strategyId, policy, requested);
    PositionsAgree(s, policy);
  }

  lemma {:induction false} SixParts(a: seq<Reason>, b: seq<Reason>, c: seq<Reason>, d: seq<Reason>, e: seq<Reason>, f: seq<Reason>)
    ensures forall x :: x in a + b + c + d + e + f <==> x in a || x in b || x in c || x in d || x in e || x in f
  {
  }

  lemma {:induction false} CoherentIsValid(s: Snapshot)
    ensures Coherent(s) <==> StateValid(s)
  {
    OpenPart(s);
    PendingPart(s);
    hide NonNegative, Covers;
  }

  lemma {:induction false} OpenPart(s: Snapshot)
    ensures OpenStateValid(s) <==> Coherent(s.(pending := UNKNOWN))
  {
  }

  lemma {:induction false} PendingPart(s: Snapshot)
    ensures Coherent(s) <==> Coherent(s.(pending := UNKNOWN)) && PendingValid(s.pending)
  {
  }

  lemma {:induction false} GlobalAgrees(s: Snapshot, policy: Policy, requested: Option<real>)
    ensures Refuses(GlobalCap(policy), s.globalOpen, if s.pending.KNOWN? then Some(s.pending.global) else None, requested)
            <==> GlobalExceeded(s, policy, requested)
  {
  }

  lemma {:induction false} PairAgrees(s: Snapshot, pair: string, policy: Policy, requested: Option<real>)
    ensures Refuses(PairCap(policy), At(s.perPairOpen, pair), if s.pending.KNOWN? then Some(At(s.pending.perPair, pair)) else None, requested)
            <==> PairExceeded(s, pair, policy, requested)
  {
  }

  lemma {:induction false} StrategyAgrees(s: Snapshot, strategyId: string, policy: Policy, requested: Option<real>)
    ensures Refuses(policy.maxStrategyExposure, At(s.perStrategyOpen, strategyId),
                    if s.pending.KNOWN? then Some(At(s.pending.perStrategy, strategyId)) else None, requested)
            <==> StrategyExceeded(s, strategyId, policy, requested)
  {
  }

  lemma {:induction false} PositionsAgree(s: Snapshot, policy: Policy)
    ensures PositionsRefuse(s, policy) <==> PositionsExceeded(s, policy)
  {
  }

  lemma {:induction false} ReservationReasonsAreExact(rs: seq<Reservation>, c: Candidate)
    ensures var reasons := ReservationReasons(rs, c);
            && (EXPOSURE_STATE_UNAVAILABLE in reasons <==> Repeats(rs))
            && (DECISION_IDENTITY_MISMATCH in reasons <==> OtherLineage(rs, c))
            && (forall reason <- reasons :: reason == EXPOSURE_STATE_UNAVAILABLE || reason == DECISION_IDENTITY_MISMATCH)
  {
    if rs != [] {
      var front, last := rs[..|rs| - 1], rs[|rs| - 1];
      ReservationReasonsAreExact(front, c);
      assert rs == front + [last];
      OneMoreReservation(front, last);
      hide Repeats;
    }
  }

  lemma {:induction false} OneMoreReservation(front: seq<Reservation>, last: Reservation)
    ensures Repeats(front + [last]) <==> Repeats(front) || exists earlier <- front :: earlier.instanceId == last.instanceId
  {
    var rs := front + [last];
    if Repeats(rs) {
      var i, j :| 0 <= i < j < |rs| && rs[i].instanceId == rs[j].instanceId;
      assert rs[i] == front[i] && front[i] in front;
    }
    if Repeats(front) {
      var i, j :| 0 <= i < j < |front| && front[i].instanceId == front[j].instanceId;
      assert rs[i].instanceId == rs[j].instanceId;
    }
    if exists earlier <- front :: earlier.instanceId == last.instanceId {
      var i :| 0 <= i < |front| && front[i].instanceId == last.instanceId;
      assert rs[i].instanceId == rs[|front|].instanceId;
    }
  }

  /** `cap` leaves room for `notional` on top of what is open and pending, and is not already exhausted by what is open. */
  predicate LeavesRoom(cap: real, open: real, pending: real, notional: real) {
    open < cap && open + pending + notional <= cap
  }

  /** Room for `notional` more under every single limit of the policy. */
  predicate Fits(s: Snapshot, c: Candidate, policy: Policy, notional: real) {
    && s.pending.KNOWN?
    && LeavesRoom(policy.globalMaxOpenNotional, s.globalOpen, s.pending.global, notional)
    && LeavesRoom(policy.maxConcurrentExposure, s.globalOpen, s.pending.global, notional)
    && (var open := if c.pair in s.perPairOpen then s.perPairOpen[c.pair] else 0.0;
        var pending := if c.pair in s.pending.perPair then s.pending.perPair[c.pair] else 0.0;
        LeavesRoom(policy.pairMaxExposure, open, pending, notional) && LeavesRoom(policy.maxCoinExposure, open, pending, notional))
    && (var open := if c.strategyId in s.perStrategyOpen then s.perStrategyOpen[c.strategyId] else 0.0;
        var pending := if c.strategyId in s.pending.perStrategy then s.pending.perStrategy[c.strategyId] else 0.0;
        LeavesRoom(policy.maxStrategyExposure, open, pending, notional))
    && RoomForOne(s, policy)
  }

  /** One more position stays within all three limits on their number. */
  predicate RoomForOne(s: Snapshot, policy: Policy)
    requires s.pending.KNOWN?
  {
    var positions := s.openPositions + s.pending.count + 1;
    && positions <= policy.globalMaxConcurrentPositions && positions <= policy.maxConcurrentPositions
    && (policy.pairMaxConcurrentPositions.Some? ==> positions <= policy.pairMaxConcurrentPositions.value)
  }

  /** The reasons are silent exactly when the state is sound, its lineage agrees, and the request fits every limit. */
  lemma {:induction false} SilentMeansFits(s: Snapshot, c: Candidate, policy: Policy, notional: real)
    ensures Reasons(Some(s), c, policy, Some(notional)) == [] <==>
              && s.pending.KNOWN? && Coherent(s) && !Repeats(s.pending.reservations) && !OtherLineage(s.pending.reservations, c)
              && Fits(s, c, policy, notional)
  {
    ReasonsAreExact(s, c, policy, Some(notional));
    if s.pending.KNOWN? && Coherent(s) {
      KeysNonNegative(s, c);
      FitsUnlessExceeded(s, c, policy, notional);
    }
    hide Coherent, Repeats, OtherLineage, GlobalExceeded, PairExceeded, StrategyExceeded, PositionsExceeded, Fits;
    NoReasonIsSilent(s, c, policy, Some(notional));
  }

  lemma {:induction false} NoReasonIsSilent(s: Snapshot, c: Candidate, policy: Policy, requested: Option<real>)
    ensures var reasons := Reasons(Some(s), c, policy, requested);
            reasons == [] <==>
              && EXPOSURE_STATE_UNAVAILABLE !in reasons && PENDING_EXPOSURE_UNKNOWN !in reasons && DECISION_IDENTITY_MISMATCH !in reasons
              && GLOBAL_EXPOSURE_LIMIT !in reasons && PAIR_EXPOSURE_LIMIT !in reasons && STRATEGY_EXPOSURE_LIMIT !in reasons
              && MAX_CONCURRENT_POSITIONS !in reasons
  {
    hide Reasons;
    var reasons := Reasons(Some(s), c, policy, requested);
    if reasons != [] {
      var first := reasons[0];
      assert first in reasons;
      assert first.EXPOSURE_STATE_UNAVAILABLE? || first.PENDING_EXPOSURE_UNKNOWN? || first.DECISION_IDENTITY_MISMATCH?
             || first.GLOBAL_EXPOSURE_LIMIT? || first.PAIR_EXPOSURE_LIMIT? || first.STRATEGY_EXPOSURE_LIMIT? || first.MAX_CONCURRENT_POSITIONS?;
    }
  }

  lemma {:induction false} KeysNonNegative(s: Snapshot, c: Candidate)
    requires s.pending.KNOWN? && Coherent(s)
    ensures s.globalOpen >= 0.0 && s.pending.global >= 0.0 && s.openPositions >= 0 && s.pending.count >= 0
    ensures c.pair in s.perPairOpen ==> s.perPairOpen[c.pair] >= 0.0
    ensures c.pair in s.pending.perPair ==> s.pending.perPair[c.pair] >= 0.0
    ensures c.strategyId in s.perStrategyOpen ==> s.perStrategyOpen[c.strategyId] >= 0.0
    ensures c.strategyId in s.pending.perStrategy ==> s.pending.perStrategy[c.strategyId] >= 0.0
  {
  }

  lemma {:induction false} FitsUnlessExceeded(s: Snapshot, c: Candidate, policy: Policy, notional: real)
    requires s.pending.KNOWN? && Coherent(s)
    ensures Fits(s, c, policy, notional) <==>
              && !GlobalExceeded(s, policy, Some(notional)) && !PairExceeded(s, c.pair, policy, Some(notional))
              && !StrategyExceeded(s, c.strategyId, policy, Some(notional)) && !PositionsExceeded(s, policy)
  {
    KeysNonNegative(s, c);
    hide Coherent;
  }

  /** Each headroom is the most that its caps leave; there is none for a state that is unknown or not coherent. */
  lemma {:induction false} HeadroomIsExact(s: Snapshot, c: Candidate, policy: Policy, notional: real)
    ensures HeadroomFor(s, c, policy).Some? <==> s.pending.KNOWN? && Coherent(s)
    ensures HeadroomFor(s, c, policy).Some? ==>
              var h := HeadroomFor(s, c, policy).value;
              var global := s.globalOpen + s.pending.global + notional;
              var pair := (if c.pair in s.perPairOpen then s.perPairOpen[c.pair] else 0.0)
                          + (if c.pair in s.pending.perPair then s.pending.perPair[c.pair] else 0.0) + notional;
              var strategy := (if c.strategyId in s.perStrategyOpen then s.perStrategyOpen[c.strategyId] else 0.0)
                              + (if c.strategyId in s.pending.perStrategy then s.pending.perStrategy[c.strategyId] else 0.0) + notional;
              && (notional <= h.global <==> global <= policy.globalMaxOpenNotional && global <= policy.maxConcurrentExposure)
              && (notional <= h.pair <==> pair <= policy.pairMaxExposure && pair <= policy.maxCoinExposure)
              && (notional <= h.strategy <==> strategy <= policy.maxStrategyExposure)
  {
    CoherentIsValid(s);
    hide Coherent, StateValid;
  }

  /** Sizing within the headroom is what the caps later accept: a positive notional no larger than every headroom fits,
      and nothing larger does. */
  lemma {:induction false} HeadroomIsTheBound(s: Snapshot, c: Candidate, policy: Policy, notional: real)
    requires s.pending.KNOWN? && Coherent(s) && notional > 0.0 && RoomForOne(s, policy)
    ensures HeadroomFor(s, c, policy).Some?
    ensures var h := HeadroomFor(s, c, policy).value;
            notional <= h.global && notional <= h.pair && notional <= h.strategy <==> Fits(s, c, policy, notional)
  {
    HeadroomIsExact(s, c, policy, notional);
    KeysNonNegative(s, c);
    hide Coherent, HeadroomFor;
  }
}
