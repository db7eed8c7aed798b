/** The ranking policy written out metric by metric: which direction is better, what a position and a weight are worth, and
    what that makes of a candidate. */
module RankingPolicy {
  import opened Common
  import opened Orders
  import opened Ranking
  import opened RankingTheorems

  // -------------------------------------------------------------- one metric

  /** `v` is strictly better than `w`: higher is better, except for the drawdown. */
  predicate Beats(c: Component, v: int, w: int) {
    match c
    case SHARPE => v > w
    case SORTINO => v > w
    case MAX_DRAWDOWN => v < w
    case PROFIT_FACTOR => v > w
    case EXPECTANCY => v > w
    case OOS_CONSISTENCY => v > w
    case PARAMETER_ROBUSTNESS => v > w
  }

  /** `q` is the whole number nearest to `n / d`, and the larger one of two equally near. */
  predicate Nearest(q: int, n: int, d: int) {
    2 * n - d < 2 * d * q <= 2 * n + d
  }

  /** A value's place in its column: how many distinct values there are and beat it, and the share of the others it is
      ahead of, from 1 for the best to 0 for the worst. */
  ghost predicate Placed(n: Normalized, column: set<int>, c: Component, v: int) {
    && n.distinctValueCount == |column| && n.ordinalPosition == |set w <- column | Beats(c, w, v)|
    && (|column| == 1 ==> n.componentScore == 1_000_000_000_000_000_000)
    && (|column| > 1 ==>
          Nearest(n.componentScore, (|column| - 1 - n.ordinalPosition) * 1_000_000_000_000_000_000, |column| - 1))
  }

  lemma {:induction false} NormalizedIsPlaced(column: set<int>, c: Component, v: int)
    requires v in column
    ensures Placed(NormalizedOf(column, c, v), column, c, v)
  {
    assert (set w <- column | Beats(c, w, v)) == (set w <- column | Better(c, w, v));
    if |column| > 1 {
      HalfUpIsNearest((|column| - 1 - Position(column, c, v)) * ONE, |column| - 1);
    } else {
      assert column != {};
    }
    hide HalfUp, Better, Beats;
  }

  // ----------------------------------------------------------- one candidate

  type Metric = Metrics<int> -> int

  function Sharpe(): Metric {
    (m: Metrics<int>) => m.sharpe
  }

  function Sortino(): Metric {
    (m: Metrics<int>) => m.sortino
  }

  function MaxDrawdown(): Metric {
    (m: Metrics<int>) => m.maxDrawdown
  }

  function ProfitFactor(): Metric {
    (m: Metrics<int>) => m.profitFactor
  }

  function Expectancy(): Metric {
    (m: Metrics<int>) => m.expectancy
  }

  function OosConsistency(): Metric {
    (m: Metrics<int>) => m.oosConsistency
  }

  function ParameterRobustness(): Metric {
    (m: Metrics<int>) => m.parameterRobustness
  }

  ghost function ValuesOfAll(cs: seq<Candidate>, metric: Metric): set<int> {
    set x | x in cs :: metric(x.values)
  }

  /** The row of a component: the candidate's own metric, placed among everybody's, times its weight in hundredths. */
  ghost predicate RowIs(row: Row, cs: seq<Candidate>, values: Metrics<int>, c: Component, metric: Metric, weight: int) {
    && row.component == c && row.metricValue == metric(values)
    && Placed(row.normalized, ValuesOfAll(cs, metric), c, metric(values))
    && Nearest(row.weightedScore, weight * row.normalized.componentScore, 100)
  }

  /** The policy of a candidate's score, in full: seven metrics, their directions and their weights. */
  lemma {:induction false} RowsAreThePolicy(cs: seq<Candidate>, values: Metrics<int>)
    requires Among(values, cs)
    ensures var rows := RowsOf(cs, values);
            && |rows| == 7
            && RowIs(rows[0], cs, values, SHARPE, Sharpe(), 25)
            && RowIs(rows[1], cs, values, SORTINO, Sortino(), 15)
            && RowIs(rows[2], cs, values, MAX_DRAWDOWN, MaxDrawdown(), 20)
            && RowIs(rows[3], cs, values, PROFIT_FACTOR, ProfitFactor(), 15)
            && RowIs(rows[4], cs, values, EXPECTANCY, Expectancy(), 10)
            && RowIs(rows[5], cs, values, OOS_CONSISTENCY, OosConsistency(), 10)
            && RowIs(rows[6], cs, values, PARAMETER_ROBUSTNESS, ParameterRobustness(), 5)
            && Composite(cs, values) == rows[0].weightedScore + rows[1].weightedScore + rows[2].weightedScore + rows[3].weightedScore
                                        + rows[4].weightedScore + rows[5].weightedScore + rows[6].weightedScore
  {
    RowIsThePolicy(cs, values, SHARPE, Sharpe(), 25);
    RowIsThePolicy(cs, values, SORTINO, Sortino(), 15);
    RowIsThePolicy(cs, values, MAX_DRAWDOWN, MaxDrawdown(), 20);
    RowIsThePolicy(cs, values, PROFIT_FACTOR, ProfitFactor(), 15);
    RowIsThePolicy(cs, values, EXPECTANCY, Expectancy(), 10);
    RowIsThePolicy(cs, values, OOS_CONSISTENCY, OosConsistency(), 10);
    RowIsThePolicy(cs, values, PARAMETER_ROBUSTNESS, ParameterRobustness(), 5);
    hide RowOf, RowIs;
  }

  lemma {:induction false} RowIsThePolicy(cs: seq<Candidate>, values: Metrics<int>, c: Component, metric: Metric, weight: int)
    requires Among(values, cs) && weight == Weight(c) && forall m: Metrics<int> :: metric(m) == m.Of(c)
    ensures RowIs(RowOf(cs, values, c), cs, values, c, metric, weight)
  {
    hide HalfUp, Weight, Placed, NormalizedOf;
    InColumn(cs, values, c);
    assert ValuesOfAll(cs, metric) == Column(cs, c);
    NormalizedIsPlaced(Column(cs, c), c, values.Of(c));
    HalfUpIsNearest(weight * NormalizedOf(Column(cs, c), c, values.Of(c)).componentScore, 100);
  }

  // ----------------------------------------------------------- two candidates

  /** A strictly better value, in the direction written out for its metric. */
  predicate BetterAt(c: Component, v: Metrics<int>, w: Metrics<int>) {
    match c
    case SHARPE => v.sharpe > w.sharpe
    case SORTINO => v.sortino > w.sortino
    case MAX_DRAWDOWN => v.maxDrawdown < w.maxDrawdown
    case PROFIT_FACTOR => v.profitFactor > w.profitFactor
    case EXPECTANCY => v.expectancy > w.expectancy
    case OOS_CONSISTENCY => v.oosConsistency > w.oosConsistency
    case PARAMETER_ROBUSTNESS => v.parameterRobustness > w.parameterRobustness
  }

  /** Whoever is strictly better at a metric, and only they, is placed strictly before, and scores strictly more there as
      long as the published scale can tell the places apart. */
  lemma {:induction false} BetterValueScoresMore(cs: seq<Candidate>, v: Metrics<int>, w: Metrics<int>, c: Component)
    requires Among(v, cs) && Among(w, cs)
    ensures var (x, y) := (RowOf(cs, v, c).normalized, RowOf(cs, w, c).normalized);
            && (BetterAt(c, v, w) <==> x.ordinalPosition < y.ordinalPosition)
            && (BetterAt(c, v, w) ==> x.componentScore >= y.componentScore)
            && (BetterAt(c, v, w) && x.distinctValueCount <= 1_000_000_000_000_000_001 ==> x.componentScore > y.componentScore)
  {
    InColumn(cs, v, c);
    InColumn(cs, w, c);
    assert BetterAt(c, v, w) <==> Better(c, v.Of(c), w.Of(c));
    hide Better, Score, Position, Column;
    var column := Column(cs, c);
    var p, q := Position(column, c, v.Of(c)), Position(column, c, w.Of(c));
    PositionFollowsValue(column, c, v.Of(c), w.Of(c));
    PositionInRange(column, c, v.Of(c));
    PositionInRange(column, c, w.Of(c));
    if BetterAt(c, v, w) {
      ScoreFalls(p, q, |column|);
      if |column| <= ONE + 1 {
        ScoreFallsStrictly(p, q, |column|);
      }
    }
  }

  lemma {:induction false} ScoreFallsStrictly(p: int, q: int, count: int)
    requires 0 <= p < q < count <= ONE + 1
    ensures Score(p, count) > Score(q, count)
  {
    var d := count - 1;
    var m, n := (d - p) * ONE, (d - q) * ONE;
    HalfUpIsNearest(m, d);
    HalfUpIsNearest(n, d);
    ProductsGrow(ONE, d - q + 1, d - p);
    assert m >= n + d;
    var a, b := HalfUp(m, d), HalfUp(n, d);
    hide HalfUp;
    if a <= b {
      ProductsGrow(2 * d, a, b);
    }
  }

  // --------------------------------------------------- everybody gets a result

  predicate AllAvailable(m: Metrics<Reading>) {
    && m.sharpe.VALUE? && m.sortino.VALUE? && m.maxDrawdown.VALUE? && m.profitFactor.VALUE? && m.expectancy.VALUE?
    && m.oosConsistency.VALUE? && m.parameterRobustness.VALUE?
  }

  lemma {:induction false} CompleteIsAvailable(m: Metrics<Reading>)
    ensures Complete(m) <==> AllAvailable(m)
  {
    assert COMPONENTS[0] == SHARPE && COMPONENTS[1] == SORTINO && COMPONENTS[2] == MAX_DRAWDOWN && COMPONENTS[3] == PROFIT_FACTOR
           && COMPONENTS[4] == EXPECTANCY && COMPONENTS[5] == OOS_CONSISTENCY && COMPONENTS[6] == PARAMETER_ROBUSTNESS;
    assert forall i :: 0 <= i < 7 ==> COMPONENTS[i] in COMPONENTS;
    if AllAvailable(m) {
      forall c | c in COMPONENTS ensures m.Of(c).VALUE? {
      }
    }
  }

  function Readings(m: Metrics<Reading>): Metrics<int>
    requires AllAvailable(m)
  {
    Metrics(m.sharpe.value, m.sortino.value, m.maxDrawdown.value, m.profitFactor.value, m.expectancy.value, m.oosConsistency.value,
            m.parameterRobustness.value)
  }

  /** The candidates are the evidence with all seven metrics, each with its own values. */
  lemma {:induction false} CandidatesAreTheAvailable(es: seq<Evidence>, x: Candidate)
    ensures x in Rankable(es) <==> exists e <- es :: AllAvailable(e.metrics) && x == Candidate(e.id, Readings(e.metrics))
  {
    hide Rankable, Complete;
    RankableContents(es, x);
    forall e: Evidence ensures Complete(e.metrics) <==> AllAvailable(e.metrics) {
      CompleteIsAvailable(e.metrics);
    }
    if x in Rankable(es) {
      var e :| e in es && Complete(e.metrics) && x == Candidate(e.id, ValuesOf(e.metrics));
      assert x == Candidate(e.id, Readings(e.metrics));
    }
    if exists e <- es :: AllAvailable(e.metrics) && x == Candidate(e.id, Readings(e.metrics)) {
      var e :| e in es && AllAvailable(e.metrics) && x == Candidate(e.id, Readings(e.metrics));
      assert x == Candidate(e.id, ValuesOf(e.metrics));
    }
  }

  predicate Missing(m: Metrics<Reading>, c: Component, reason: string) {
    match c
    case SHARPE => m.sharpe == UNAVAILABLE(reason)
    case SORTINO => m.sortino == UNAVAILABLE(reason)
    case MAX_DRAWDOWN => m.maxDrawdown == UNAVAILABLE(reason)
    case PROFIT_FACTOR => m.profitFactor == UNAVAILABLE(reason)
    case EXPECTANCY => m.expectancy == UNAVAILABLE(reason)
    case OOS_CONSISTENCY => m.oosConsistency == UNAVAILABLE(reason)
    case PARAMETER_ROBUSTNESS => m.parameterRobustness == UNAVAILABLE(reason)
  }

  /** A result is about its evidence: scored among all candidates if nothing is missing, and otherwise told exactly what is. */
  ghost predicate About(result: Result, e: Evidence, cs: seq<Candidate>) {
    result.id == e.id &&
    if AllAvailable(e.metrics) then
      result.Ranked? && result.rows == RowsOf(cs, Readings(e.metrics)) && result.composite == Composite(cs, Readings(e.metrics))
    else
      result.InsufficientEvidence? && forall c, reason :: (c, reason) in result.unavailable <==> Missing(e.metrics, c, reason)
  }

  ghost predicate HasResult(e: Evidence, results: seq<Result>, cs: seq<Candidate>) {
    exists k :: 0 <= k < |results| && About(results[k], e, cs)
  }

  ghost predicate HasEvidence(result: Result, es: seq<Evidence>, cs: seq<Candidate>) {
    exists e <- es :: About(result, e, cs)
  }

  /** The ranked come first, with ranks 1, 2, 3 and so on. */
  predicate Numbered(results: seq<Result>, ranked: nat) {
    && ranked <= |results|
    && (forall k :: 0 <= k < ranked ==> results[k].Ranked? && results[k].rank == k + 1 && results[k].candidateCount == ranked)
    && (forall k :: ranked <= k < |results| ==> results[k].InsufficientEvidence?)
  }

  /** Every piece of evidence has its result and every result its evidence, one for one. */
  lemma {:induction false} EverybodyGetsAResult(pair: string, planId: string, es: seq<Evidence>)
    requires UniqueIds(es)
    ensures var run := RunOf(pair, planId, es);
            && |run.results| == |es| == run.candidateCount && run.rankedCount >= 0 && Numbered(run.results, run.rankedCount)
            && (forall e <- es :: HasResult(e, run.results, Rankable(es)))
            && (forall result <- run.results :: HasEvidence(result, es, Rankable(es)))
  {
    hide RankedResults, InsufficientResults, About, Rankable, UniqueIds, HasResult, HasEvidence;
    ResultsHaveShape(es);
    var results := RankedResults(Rankable(es)) + InsufficientResults(es);
    forall e | e in es ensures HasResult(e, results, Rankable(es)) {
      Answered(es, e);
    }
    forall result | result in results ensures HasEvidence(result, es, Rankable(es)) {
      var k :| 0 <= k < |results| && results[k] == result;
      Substantiated(es, k);
    }
  }

  lemma {:induction false} Answered(es: seq<Evidence>, e: Evidence)
    requires e in es
    ensures HasResult(e, RankedResults(Rankable(es)) + InsufficientResults(es), Rankable(es))
  {
    hide RankedResults, InsufficientResults, About, Rankable;
    var k := ResultOf(es, e);
  }

  lemma {:induction false} Substantiated(es: seq<Evidence>, k: nat)
    requires k < |RankedResults(Rankable(es)) + InsufficientResults(es)|
    ensures HasEvidence((RankedResults(Rankable(es)) + InsufficientResults(es))[k], es, Rankable(es))
  {
    hide RankedResults, InsufficientResults, About, Rankable;
    var e := EvidenceOf(es, k);
  }

  lemma {:induction false} ResultsHaveShape(es: seq<Evidence>)
    requires UniqueIds(es)
    ensures |RankedResults(Rankable(es))| == |Rankable(es)| && |RankedResults(Rankable(es))| + |InsufficientResults(es)| == |es|
    ensures forall k :: 0 <= k < |RankedResults(Rankable(es))| ==>
              var x := RankedResults(Rankable(es))[k]; x.Ranked? && x.rank == k + 1 && x.candidateCount == |Rankable(es)|
    ensures forall k :: 0 <= k < |InsufficientResults(es)| ==> InsufficientResults(es)[k].InsufficientEvidence?
  {
    hide RowsOf, Composite, Rankable, Insufficient, Ordering, UniqueIds, UniqueCandidates, TieSize, ResolveTieBreakLevel, Unavailable, IdLess;
    AllCounted(es);
    RankableAreUnique(es);
    OrderingAscends(Rankable(es));
    SortContents(Insufficient(es), IdLess);
  }

  lemma {:induction false} EvidenceOf(es: seq<Evidence>, k: nat) returns (e: Evidence)
    requires k < |RankedResults(Rankable(es)) + InsufficientResults(es)|
    ensures e in es && About((RankedResults(Rankable(es)) + InsufficientResults(es))[k], e, Rankable(es))
  {
    hide RankedResults, InsufficientResults, About, Rankable;
    var ranked, rest := RankedResults(Rankable(es)), InsufficientResults(es);
    if k < |ranked| {
      RankedIsAbout(es, k);
      e :| e in es && About(ranked[k], e, Rankable(es));
    } else {
      InsufficientIsAbout(es, k - |ranked|, Rankable(es));
      e :| e in es && About(rest[k - |ranked|], e, Rankable(es));
    }
  }

  lemma {:induction false} ResultOf(es: seq<Evidence>, e: Evidence) returns (k: nat)
    requires e in es
    ensures k < |RankedResults(Rankable(es)) + InsufficientResults(es)|
    ensures About((RankedResults(Rankable(es)) + InsufficientResults(es))[k], e, Rankable(es))
  {
    hide RankedResults, InsufficientResults, About, Rankable, AllAvailable;
    if AllAvailable(e.metrics) {
      k := RankedSomewhere(es, e);
    } else {
      k := InsufficientSomewhere(es, e, Rankable(es));
      k := |RankedResults(Rankable(es))| + k;
    }
  }

  lemma {:induction false} AllCounted(es: seq<Evidence>)
    ensures |Rankable(es)| + |Insufficient(es)| == |es|
  {
    if es != [] {
      AllCounted(es[..|es| - 1]);
      hide Complete, ValuesOf;
    }
  }

  lemma {:induction false} RankedIsAbout(es: seq<Evidence>, k: nat)
    requires k < |RankedResults(Rankable(es))|
    ensures exists e <- es :: About(RankedResults(Rankable(es))[k], e, Rankable(es))
  {
    var cs := Rankable(es);
    hide RowsOf, Composite, Rankable, TieSize, ResolveTieBreakLevel, AllAvailable, Before;
    SortContents(ScoredAll(cs), Before);
    var x := Ordering(cs)[k];
    assert x in ScoredAll(cs);
    var i :| 0 <= i < |cs| && ScoredAll(cs)[i] == x;
    assert cs[i] in cs;
    CandidatesAreTheAvailable(es, cs[i]);
    var e :| e in es && AllAvailable(e.metrics) && cs[i] == Candidate(e.id, Readings(e.metrics));
    assert About(RankedAt(cs, Ordering(cs), k), e, cs);
  }

  lemma {:induction false} RankedSomewhere(es: seq<Evidence>, e: Evidence) returns (k: nat)
    requires e in es && AllAvailable(e.metrics)
    ensures k < |RankedResults(Rankable(es))| && About(RankedResults(Rankable(es))[k], e, Rankable(es))
  {
    var cs := Rankable(es);
    hide RowsOf, Composite, Rankable, TieSize, ResolveTieBreakLevel, AllAvailable, Before;
    var x := Candidate(e.id, Readings(e.metrics));
    CandidatesAreTheAvailable(es, x);
    var i :| 0 <= i < |cs| && cs[i] == x;
    assert ScoredAll(cs)[i] in ScoredAll(cs);
    SortContents(ScoredAll(cs), Before);
    k :| 0 <= k < |Ordering(cs)| && Ordering(cs)[k] == ScoredAll(cs)[i];
    assert About(RankedAt(cs, Ordering(cs), k), e, cs);
  }

  lemma {:induction false} UnavailableIsMissing(m: Metrics<Reading>, cs: seq<Component>, c: Component, reason: string)
    ensures (c, reason) in Unavailable(m, cs) <==> c in cs && m.Of(c) == UNAVAILABLE(reason)
  {
    if cs != [] {
      UnavailableIsMissing(m, cs[1..], c, reason);
      assert cs == [cs[0]] + cs[1..];
    }
  }

  lemma {:induction false} InsufficientAbout(e: Evidence, cs: seq<Candidate>)
    requires !Complete(e.metrics)
    ensures About(InsufficientResult(e), e, cs)
  {
    hide Complete, RowsOf, Composite, Unavailable;
    CompleteIsAvailable(e.metrics);
    forall c, reason ensures (c, reason) in Unavailable(e.metrics, COMPONENTS) <==> Missing(e.metrics, c, reason) {
      UnavailableIsMissing(e.metrics, COMPONENTS, c, reason);
      EveryComponent(c);
    }
  }

  lemma {:induction false} EveryComponent(c: Component)
    ensures c in COMPONENTS
  {
    assert COMPONENTS[0] == SHARPE && COMPONENTS[1] == SORTINO && COMPONENTS[2] == MAX_DRAWDOWN && COMPONENTS[3] == PROFIT_FACTOR
           && COMPONENTS[4] == EXPECTANCY && COMPONENTS[5] == OOS_CONSISTENCY && COMPONENTS[6] == PARAMETER_ROBUSTNESS;
  }

  lemma {:induction false} InsufficientIsAbout(es: seq<Evidence>, k: nat, cs: seq<Candidate>)
    requires k < |InsufficientResults(es)|
    ensures exists e <- es :: About(InsufficientResults(es)[k], e, cs)
  {
    hide Insufficient, IdLess, InsufficientResult, About, Complete;
    var sorted := Sort(Insufficient(es), IdLess);
    SortContents(Insufficient(es), IdLess);
    assert sorted[k] in sorted;
    InsufficientContents(es, sorted[k]);
    InsufficientAbout(sorted[k], cs);
  }

  lemma {:induction false} InsufficientSomewhere(es: seq<Evidence>, e: Evidence, cs: seq<Candidate>) returns (k: nat)
    requires e in es && !AllAvailable(e.metrics)
    ensures k < |InsufficientResults(es)| && About(InsufficientResults(es)[k], e, cs)
  {
    hide Insufficient, IdLess, InsufficientResult, About, Complete, AllAvailable;
    CompleteIsAvailable(e.metrics);
    InsufficientContents(es, e);
    SortContents(Insufficient(es), IdLess);
    k :| 0 <= k < |Sort(Insufficient(es), IdLess)| && Sort(Insufficient(es), IdLess)[k] == e;
    InsufficientAbout(e, cs);
  }
}
