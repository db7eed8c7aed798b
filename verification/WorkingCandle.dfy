/** Model of src/market-data/working-candle.ts: the forming candle of every
    minute, kept as the newest full snapshot the exchange has sent, together with
    the evidence that lets two contradictory snapshots be noticed. */
module WorkingCandle {
  import opened Common

  const MAX_PROVIDER_TIMES_PER_WORKING_MINUTE: nat := 4096

  /** The financial content of a candle; decimals are exact, so reals. */
  datatype Values = Values(open: real, high: real, low: real, close: real, volume: real, quoteVolume: Option<real>)

  datatype Snapshot = Snapshot(pair: string, openTimeMs: int, values: Values, providerEventTimeMs: int,
                               sequence: int, receivedAtMs: int, generationId: int)

  /** The `pair:openTimeMs` key of the source's maps. */
  datatype Key = Key(pair: string, openTimeMs: int)

  function KeyOf(s: Snapshot): Key {
    Key(s.pair, s.openTimeMs)
  }

  datatype EvidenceFault = CONFLICT | EVIDENCE_LIMIT

  /** Fingerprints by provider time. The hash is injective here, so the fingerprint is the content. */
  datatype Evidence = Evidence(times: map<int, Values>, fault: Option<EvidenceFault>)

  datatype Manager = Manager(working: map<Key, Snapshot>, current: map<string, int>, evidence: map<Key, Evidence>)

  const EMPTY: Manager := Manager(map[], map[], map[])

  datatype UpdateResult = ACCEPTED | IDEMPOTENT_DUPLICATE | SUPERSEDED | FAULTED(fault: EvidenceFault)

  function CurrentOpenTime(m: Manager, pair: string): Option<int> {
    if pair in m.current then Some(m.current[pair]) else None
  }

  // ---------------------------------------------------------------- evidence

  function Observed(e: Evidence, s: Snapshot): Evidence {
    if e.fault.Some? then e
    else if s.providerEventTimeMs in e.times then
      if e.times[s.providerEventTimeMs] != s.values then Evidence(map[], Some(CONFLICT)) else e
    else if |e.times| >= MAX_PROVIDER_TIMES_PER_WORKING_MINUTE then Evidence(map[], Some(EVIDENCE_LIMIT))
    else Evidence(e.times[s.providerEventTimeMs := s.values], None)
  }

  function EvidenceAt(m: Manager, k: Key): Evidence {
    if k in m.evidence then m.evidence[k] else Evidence(map[], None)
  }

  function Observe(m: Manager, s: Snapshot): (Manager, Option<EvidenceFault>) {
    var e := Observed(EvidenceAt(m, KeyOf(s)), s);
    (m.(evidence := m.evidence[KeyOf(s) := e]), e.fault)
  }

  // ------------------------------------------------------------------ update

  function Stored(m: Manager, s: Snapshot): Manager {
    var current := if s.pair !in m.current || s.openTimeMs >= m.current[s.pair] then m.current[s.pair := s.openTimeMs]
                   else m.current;
    m.(working := m.working[KeyOf(s) := s], current := current)
  }

  function Updated(m: Manager, s: Snapshot): (Manager, UpdateResult) {
    var (m1, fault) := Observe(m, s);
    if fault.Some? then (m1, FAULTED(fault.value))
    else if KeyOf(s) !in m1.working then (Stored(m1, s), ACCEPTED)
    else
      var existing := m1.working[KeyOf(s)];
      if existing.providerEventTimeMs == s.providerEventTimeMs && existing.values == s.values then (m1, IDEMPOTENT_DUPLICATE)
      else if s.providerEventTimeMs == existing.providerEventTimeMs then (m1, FAULTED(CONFLICT))
      else if s.providerEventTimeMs < existing.providerEventTimeMs then (m1, SUPERSEDED)
      else (Stored(m1, s), ACCEPTED)
  }

  function Deleted(m: Manager, k: Key): Manager {
    Manager(m.working - {k},
            if k.pair in m.current && m.current[k.pair] == k.openTimeMs then m.current - {k.pair} else m.current,
            m.evidence - {k})
  }

  function Cleared(m: Manager, pair: string): Manager {
    Manager(map k | k in m.working && k.pair != pair :: m.working[k],
            m.current - {pair},
            map k | k in m.evidence && k.pair != pair :: m.evidence[k])
  }

  // ------------------------------------------------------------- consistency

  /** Every stored snapshot is backed by its own fingerprint, unless its minute is already faulted,
      and the current minute of a pair is a minute being worked on. */
  ghost predicate Consistent(m: Manager) {
    && (forall k <- m.working :: KeyOf(m.working[k]) == k && k in m.evidence && Backed(m.evidence[k], m.working[k]))
    && (forall pair <- m.current :: Key(pair, m.current[pair]) in m.working)
  }

  ghost predicate Backed(e: Evidence, s: Snapshot) {
    e.fault.None? ==> s.providerEventTimeMs in e.times && e.times[s.providerEventTimeMs] == s.values
  }

  /** Every operation keeps the manager consistent; in particular the second
      equal-time conflict test of `update` never fires, because the evidence test
      before it has already compared the same two snapshots. */
  lemma {:induction false} UpdateConsistent(m: Manager, s: Snapshot)
    requires Consistent(m)
    ensures Consistent(Updated(m, s).0)
    ensures Updated(m, s).1.FAULTED? ==> Observe(m, s).1 == Some(Updated(m, s).1.fault)
  {
    hide Observed, Backed;
    ObservedBacks(EvidenceAt(m, KeyOf(s)), s);
    var m1 := Observe(m, s).0;
    assert forall k <- m.working :: k != KeyOf(s) ==> m1.evidence[k] == m.evidence[k];
    if KeyOf(s) in m.working {
      ObservedKeepsBacking(m.evidence[KeyOf(s)], s, m.working[KeyOf(s)]);
    }
  }

  lemma {:induction false} ObserveConsistent(m: Manager, s: Snapshot)
    requires Consistent(m)
    ensures Consistent(Observe(m, s).0)
  {
    UpdateConsistent(m, s);
    if KeyOf(s) in m.working {
      ObservedKeepsBacking(m.evidence[KeyOf(s)], s, m.working[KeyOf(s)]);
    }
    hide Observed, Backed, Updated;
  }

  lemma {:induction false} ObservedBacks(e: Evidence, s: Snapshot)
    ensures Backed(Observed(e, s), s)
  {
  }

  lemma {:induction false} ObservedKeepsBacking(e: Evidence, s: Snapshot, stored: Snapshot)
    requires Backed(e, stored)
    ensures Backed(Observed(e, s), stored)
    ensures Observed(e, s).fault.None? && s.providerEventTimeMs == stored.providerEventTimeMs ==> s.values == stored.values
  {
  }

  lemma {:induction false} RemovalConsistent(m: Manager, k: Key)
    requires Consistent(m)
    ensures Consistent(Deleted(m, k)) && Consistent(Cleared(m, k.pair))
    ensures k !in Deleted(m, k).working && CurrentOpenTime(Cleared(m, k.pair), k.pair).None?
  {
  }

  // -------------------------------------------------------------- confluence

  function Run(m: Manager, arrivals: seq<Snapshot>): Manager {
    if arrivals == [] then m else Updated(Run(m, arrivals[..|arrivals| - 1]), arrivals[|arrivals| - 1]).0
  }

  function TimesOf(k: Key, arrivals: seq<Snapshot>): set<int> {
    set s <- arrivals | KeyOf(s) == k :: s.providerEventTimeMs
  }

  /** Two snapshots of one minute disagree about the same provider time. */
  ghost predicate Contradictory(k: Key, arrivals: seq<Snapshot>) {
    exists a <- arrivals, b <- arrivals ::
      KeyOf(a) == k && KeyOf(b) == k && a.providerEventTimeMs == b.providerEventTimeMs && a.values != b.values
  }

  ghost predicate Seen(k: Key, arrivals: seq<Snapshot>) {
    exists s <- arrivals :: KeyOf(s) == k
  }

  /** The arrivals for one minute have made it unusable. */
  ghost predicate Broken(k: Key, arrivals: seq<Snapshot>) {
    Contradictory(k, arrivals) || |TimesOf(k, arrivals)| > MAX_PROVIDER_TIMES_PER_WORKING_MINUTE
  }

  ghost predicate SummarisesFault(e: Evidence, k: Key, arrivals: seq<Snapshot>) {
    match e.fault
    case None => false
    case Some(CONFLICT) => Contradictory(k, arrivals)
    case Some(EVIDENCE_LIMIT) => |TimesOf(k, arrivals)| > MAX_PROVIDER_TIMES_PER_WORKING_MINUTE
  }

  ghost predicate SummarisesTimes(e: Evidence, k: Key, arrivals: seq<Snapshot>) {
    && e.fault.None?
    && e.times.Keys == TimesOf(k, arrivals)
    && forall s <- arrivals :: KeyOf(s) == k ==> e.times[s.providerEventTimeMs] == s.values
  }

  /** The stored candle is one of the arrivals with the greatest provider time. */
  ghost predicate SummarisesCandle(stored: Snapshot, k: Key, arrivals: seq<Snapshot>) {
    && stored in arrivals
    && KeyOf(stored) == k
    && forall s <- arrivals :: KeyOf(s) == k ==> s.providerEventTimeMs <= stored.providerEventTimeMs
  }

  /** What the evidence and the stored candle of one minute say about the arrivals so far. */
  ghost predicate Summarises(m: Manager, k: Key, arrivals: seq<Snapshot>) {
    if Broken(k, arrivals) then SummarisesFault(EvidenceAt(m, k), k, arrivals)
    else
      && SummarisesTimes(EvidenceAt(m, k), k, arrivals)
      && (k in m.working <==> Seen(k, arrivals))
      && (k in m.working ==> SummarisesCandle(m.working[k], k, arrivals))
  }

  /** Whatever the arrival order, and whatever arrives for other minutes in
      between, a minute faults exactly when its snapshots contradict each other or
      exceed the evidence limit; otherwise the stored candle is one with the
      greatest provider time. */
  lemma {:induction false} RunSummarises(k: Key, arrivals: seq<Snapshot>)
    ensures Summarises(Run(EMPTY, arrivals), k, arrivals)
  {
    if arrivals != [] {
      var before := arrivals[..|arrivals| - 1];
      var s := arrivals[|arrivals| - 1];
      RunSummarises(k, before);
      assert arrivals == before + [s];
      StepSummarises(Run(EMPTY, before), k, before, s);
    }
  }

  lemma {:induction false} StepSummarises(m: Manager, k: Key, before: seq<Snapshot>, s: Snapshot)
    requires Summarises(m, k, before)
    ensures Summarises(Updated(m, s).0, k, before + [s])
  {
    if KeyOf(s) != k {
      OtherMinute(k, before, s);
      OtherMinuteUntouched(m, k, s);
      assert forall x :: x in before ==> x in before + [s];
      assert forall x :: x in before + [s] && KeyOf(x) == k ==> x in before;
    } else if Broken(k, before) {
      BrokenStays(k, before, s);
    } else {
      EvidenceStep(EvidenceAt(m, k), k, before, s);
      if !Broken(k, before + [s]) {
        CandleStep(m, k, before, s);
      }
    }
  }

  lemma {:induction false} OtherMinuteUntouched(m: Manager, k: Key, s: Snapshot)
    requires KeyOf(s) != k
    ensures var m' := Updated(m, s).0;
            && EvidenceAt(m', k) == EvidenceAt(m, k)
            && (k in m'.working <==> k in m.working)
            && (k in m.working ==> m'.working[k] == m.working[k])
  {
  }

  lemma {:induction false} CandleStep(m: Manager, k: Key, before: seq<Snapshot>, s: Snapshot)
    requires KeyOf(s) == k
    requires k in m.working <==> Seen(k, before)
    requires k in m.working ==> SummarisesCandle(m.working[k], k, before)
    requires SummarisesTimes(Observed(EvidenceAt(m, k), s), k, before + [s])
    ensures var m' := Updated(m, s).0;
            && Seen(k, before + [s])
            && SummarisesTimes(EvidenceAt(m', k), k, before + [s])
            && k in m'.working && SummarisesCandle(m'.working[k], k, before + [s])
  {
    assert s in before + [s];
    assert forall x :: x in before + [s] <==> x in before || x == s;
  }

  lemma {:induction false} OtherMinute(k: Key, before: seq<Snapshot>, s: Snapshot)
    requires KeyOf(s) != k
    ensures TimesOf(k, before + [s]) == TimesOf(k, before)
    ensures Contradictory(k, before + [s]) <==> Contradictory(k, before)
    ensures Seen(k, before + [s]) <==> Seen(k, before)
  {
    assert forall x :: x in before + [s] <==> x in before || x == s;
  }

  lemma {:induction false} ContradictionGrows(k: Key, before: seq<Snapshot>, s: Snapshot)
    requires KeyOf(s) == k
    ensures Contradictory(k, before + [s]) <==> Contradictory(k, before) || Contradicts(k, before, s)
    ensures TimesOf(k, before + [s]) == TimesOf(k, before) + {s.providerEventTimeMs}
  {
    assert forall x :: x in before + [s] <==> x in before || x == s;
  }

  ghost predicate Contradicts(k: Key, before: seq<Snapshot>, s: Snapshot) {
    exists a <- before :: KeyOf(a) == k && a.providerEventTimeMs == s.providerEventTimeMs && a.values != s.values
  }

  /** Once broken, always broken. */
  lemma {:induction false} BrokenStays(k: Key, before: seq<Snapshot>, s: Snapshot)
    requires KeyOf(s) == k && Broken(k, before)
    ensures Broken(k, before + [s])
    ensures Contradictory(k, before) ==> Contradictory(k, before + [s])
    ensures |TimesOf(k, before)| <= |TimesOf(k, before + [s])|
  {
    ContradictionGrows(k, before, s);
    assert TimesOf(k, before + [s]) == TimesOf(k, before) + ({s.providerEventTimeMs} - TimesOf(k, before));
  }

  lemma {:induction false} EvidenceAgrees(e: Evidence, k: Key, before: seq<Snapshot>, s: Snapshot)
    requires KeyOf(s) == k && SummarisesTimes(e, k, before)
    ensures |e.times| == |TimesOf(k, before)|
    ensures Contradicts(k, before, s) <==> s.providerEventTimeMs in e.times && e.times[s.providerEventTimeMs] != s.values
  {
    assert |e.times| == |e.times.Keys|;
    if s.providerEventTimeMs in e.times {
      var a :| a in before && KeyOf(a) == k && a.providerEventTimeMs == s.providerEventTimeMs;
      assert e.times[s.providerEventTimeMs] == a.values;
    }
  }

  /** The evidence of one minute after one more snapshot for it. */
  lemma {:induction false} EvidenceStep(e: Evidence, k: Key, before: seq<Snapshot>, s: Snapshot)
    requires KeyOf(s) == k && !Broken(k, before) && SummarisesTimes(e, k, before)
    ensures if Broken(k, before + [s]) then SummarisesFault(Observed(e, s), k, before + [s])
            else SummarisesTimes(Observed(e, s), k, before + [s])
  {
    if s.providerEventTimeMs in e.times {
      KnownTimeStep(e, k, before, s);
    } else {
      FreshTimeStep(e, k, before, s);
    }
  }

  lemma {:induction false} KnownTimeStep(e: Evidence, k: Key, before: seq<Snapshot>, s: Snapshot)
    requires KeyOf(s) == k && !Broken(k, before) && SummarisesTimes(e, k, before)
    requires s.providerEventTimeMs in e.times
    ensures Broken(k, before + [s]) <==> e.times[s.providerEventTimeMs] != s.values
    ensures Broken(k, before + [s]) ==> Contradictory(k, before + [s])
    ensures !Broken(k, before + [s]) ==> SummarisesTimes(e, k, before + [s])
  {
    ContradictionGrows(k, before, s);
    EvidenceAgrees(e, k, before, s);
    assert TimesOf(k, before + [s]) == TimesOf(k, before);
    if e.times[s.providerEventTimeMs] == s.values {
      ValuesAgree(e, k, before, s);
    }
  }

  lemma {:induction false} FreshTimeStep(e: Evidence, k: Key, before: seq<Snapshot>, s: Snapshot)
    requires KeyOf(s) == k && !Broken(k, before) && SummarisesTimes(e, k, before)
    requires s.providerEventTimeMs !in e.times
    ensures Broken(k, before + [s]) <==> |e.times| >= MAX_PROVIDER_TIMES_PER_WORKING_MINUTE
    ensures Broken(k, before + [s]) ==> |TimesOf(k, before + [s])| > MAX_PROVIDER_TIMES_PER_WORKING_MINUTE
    ensures !Broken(k, before + [s]) ==>
              SummarisesTimes(Evidence(e.times[s.providerEventTimeMs := s.values], None), k, before + [s])
  {
    ContradictionGrows(k, before, s);
    EvidenceAgrees(e, k, before, s);
    assert |TimesOf(k, before + [s])| == |TimesOf(k, before)| + 1;
    if |e.times| < MAX_PROVIDER_TIMES_PER_WORKING_MINUTE {
      ValuesAgree(e.(times := e.times[s.providerEventTimeMs := s.values]), k, before, s);
    }
  }

  lemma {:induction false} ValuesAgree(e: Evidence, k: Key, before: seq<Snapshot>, s: Snapshot)
    requires KeyOf(s) == k && s.providerEventTimeMs in e.times && e.times[s.providerEventTimeMs] == s.values
    requires e.fault.None? && e.times.Keys == TimesOf(k, before + [s])
    requires forall x <- before :: KeyOf(x) == k && x.providerEventTimeMs != s.providerEventTimeMs ==>
                                     e.times[x.providerEventTimeMs] == x.values
    requires !Contradicts(k, before, s)
    ensures SummarisesTimes(e, k, before + [s])
  {
    forall x <- before + [s] | KeyOf(x) == k ensures e.times[x.providerEventTimeMs] == x.values {
    }
  }

  ghost predicate Faulted(m: Manager, k: Key) {
    EvidenceAt(m, k).fault.Some?
  }

  /** Confluence: two arrival orders of the same snapshots agree on whether a
      minute is faulted, and when it is not, on the stored candle. */
  lemma {:induction false} ArrivalOrderIrrelevant(k: Key, arrivals: seq<Snapshot>, reordered: seq<Snapshot>)
    requires multiset(arrivals) == multiset(reordered)
    ensures var m, m' := Run(EMPTY, arrivals), Run(EMPTY, reordered);
            && (Faulted(m, k) <==> Faulted(m', k))
            && (Faulted(m, k) <==> Broken(k, arrivals))
            && (|TimesOf(k, arrivals)| <= MAX_PROVIDER_TIMES_PER_WORKING_MINUTE ==> EvidenceAt(m, k).fault == EvidenceAt(m', k).fault)
            && (!Faulted(m, k) ==> (k in m.working <==> k in m'.working))
            && (!Faulted(m, k) && k in m.working ==>
                  && m.working[k].values == m'.working[k].values
                  && m.working[k].providerEventTimeMs == m'.working[k].providerEventTimeMs)
  {
    hide Run, TimesOf, Contradictory, Seen;
    RunSummarises(k, arrivals);
    RunSummarises(k, reordered);
    SameSnapshots(k, arrivals, reordered);
  }

  lemma {:induction false} SameSnapshots(k: Key, arrivals: seq<Snapshot>, reordered: seq<Snapshot>)
    requires multiset(arrivals) == multiset(reordered)
    ensures forall x :: x in arrivals <==> x in reordered
    ensures TimesOf(k, arrivals) == TimesOf(k, reordered) && Contradictory(k, arrivals) == Contradictory(k, reordered)
    ensures Seen(k, arrivals) == Seen(k, reordered)
  {
    assert forall x :: x in arrivals <==> x in multiset(arrivals);
    assert forall x :: x in reordered <==> x in multiset(reordered);
  }

  // ------------------------------------------------------------ the manager

  /** The mutable manager: three maps changed in place. */
  class WorkingCandleManager {
    var workingMap: map<Key, Snapshot>
    var currentOpenTimeByPair: map<string, int>
    var evidence: map<Key, Evidence>

    ghost function View(): Manager
      reads this
    {
      Manager(workingMap, currentOpenTimeByPair, evidence)
    }

    ghost predicate Valid()
      reads this
    {
      Consistent(View())
    }

    constructor ()
      ensures View() == EMPTY && Valid()
    {
      workingMap, currentOpenTimeByPair, evidence := map[], map[], map[];
    }

    method ObserveEvidence(s: Snapshot) returns (fault: Option<EvidenceFault>)
      modifies this`evidence
      ensures (View(), fault) == Observe(old(View()), s)
    {
      var k := KeyOf(s);
      var item := if k in evidence then evidence[k] else Evidence(map[], None);
      if item.fault.Some? {
        evidence := evidence[k := item];
        return item.fault;
      }
      if s.providerEventTimeMs in item.times {
        if item.times[s.providerEventTimeMs] != s.values {
          item := item.(fault := Some(CONFLICT));
        }
      } else if |item.times| >= MAX_PROVIDER_TIMES_PER_WORKING_MINUTE {
        item := item.(fault := Some(EVIDENCE_LIMIT));
      } else {
        item := item.(times := item.times[s.providerEventTimeMs := s.values]);
      }
      if item.fault.Some? {
        item := item.(times := map[]);
      }
      evidence := evidence[k := item];
      return item.fault;
    }

    method Update(s: Snapshot) returns (result: UpdateResult)
      requires Valid()
      modifies this
      ensures Valid()
      ensures (View(), result) == Updated(old(View()), s)
      ensures result == FAULTED(CONFLICT) ==> Observe(old(View()), s).1 == Some(CONFLICT)
    {
      UpdateConsistent(View(), s);
      var fault := ObserveEvidence(s);
      if fault.Some? {
        return FAULTED(fault.value);
      }
      var k := KeyOf(s);
      if k !in workingMap {
        Keep(s);
        return ACCEPTED;
      }
      var existing := workingMap[k];
      if existing.providerEventTimeMs == s.providerEventTimeMs && existing.values == s.values {
        return IDEMPOTENT_DUPLICATE;
      }
      if s.providerEventTimeMs == existing.providerEventTimeMs {
        return FAULTED(CONFLICT);
      }
      if s.providerEventTimeMs < existing.providerEventTimeMs {
        return SUPERSEDED;
      }
      Keep(s);
      return ACCEPTED;
    }

    method Keep(s: Snapshot)
      modifies this
      ensures View() == Stored(old(View()), s)
    {
      workingMap := workingMap[KeyOf(s) := s];
      if s.pair !in currentOpenTimeByPair || s.openTimeMs >= currentOpenTimeByPair[s.pair] {
        currentOpenTimeByPair := currentOpenTimeByPair[s.pair := s.openTimeMs];
      }
    }

    method Delete(pair: string, openTimeMs: int)
      requires Valid()
      modifies this
      ensures Valid() && View() == Deleted(old(View()), Key(pair, openTimeMs))
    {
      RemovalConsistent(View(), Key(pair, openTimeMs));
      workingMap := workingMap - {Key(pair, openTimeMs)};
      evidence := evidence - {Key(pair, openTimeMs)};
      if pair in currentOpenTimeByPair && currentOpenTimeByPair[pair] == openTimeMs {
        currentOpenTimeByPair := currentOpenTimeByPair - {pair};
      }
    }

    method Clear(pair: string)
      requires Valid()
      modifies this
      ensures Valid() && View() == Cleared(old(View()), pair)
    {
      RemovalConsistent(View(), Key(pair, 0));
      evidence := map k | k in evidence && k.pair != pair :: evidence[k];
      workingMap := map k | k in workingMap && k.pair != pair :: workingMap[k];
      currentOpenTimeByPair := currentOpenTimeByPair - {pair};
    }
  }
}
