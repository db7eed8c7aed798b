/** A ranking is a function of the candidate set, bounded, and never punishes a better candidate. */
module RankingTheorems {
  import opened Common
  import opened Orders
  import opened Ranking

  // --------------------------------------------------------------- rounding

  /** Round half up: the nearest integer, and the larger one of two equally near. */
  lemma {:induction false} HalfUpIsNearest(n: int, d: int)
    requires d > 0
    ensures 2 * n - d < 2 * d * HalfUp(n, d) <= 2 * n + d
  {
    var x, y := 2 * n + d, 2 * d;
    assert x == y * (x / y) + x % y;
  }

  lemma {:induction false} NearestIsUnique(n: int, d: int, h: int)
    requires d > 0 && 2 * n - d < 2 * d * h <= 2 * n + d
    ensures HalfUp(n, d) == h
  {
    HalfUpIsNearest(n, d);
    Between(HalfUp(n, d), h, 2 * d, 2 * n + d);
  }

  lemma {:induction false} Between(a: int, b: int, y: int, x: int)
    requires y > 0 && x - y < y * a <= x && x - y < y * b <= x
    ensures a == b
  {
    if a > b {
      ProductsGrow(y, b + 1, a);
    } else if b > a {
      ProductsGrow(y, a + 1, b);
    }
  }

  lemma {:induction false} ProductsGrow(y: int, a: int, b: int)
    requires y >= 0 && a <= b
    ensures y * a <= y * b
  {
    assert y * b - y * a == y * (b - a);
  }

  lemma {:induction false} HalfUpGrows(m: int, n: int, d: int)
    requires d > 0 && m <= n
    ensures HalfUp(m, d) <= HalfUp(n, d)
  {
    HalfUpIsNearest(m, d);
    HalfUpIsNearest(n, d);
    var a, b := HalfUp(m, d), HalfUp(n, d);
    hide HalfUp;
    if a > b {
      ProductsGrow(2 * d, b + 1, a);
    }
  }

  lemma {:induction false} HalfUpExact(k: int, d: int)
    requires d > 0
    ensures HalfUp(k * d, d) == k
  {
    NearestIsUnique(k * d, d, k);
  }

  // --------------------------------------------------------------- positions

  lemma {:induction false} SubsetSize<T>(a: set<T>, b: set<T>)
    requires a <= b
    ensures |a| <= |b|
    ensures a != b ==> |a| < |b|
  {
    assert b == a + (b - a);
    assert a != b ==> b - a != {};
  }

  lemma {:induction false} PositionInRange(column: set<int>, c: Component, v: int)
    requires v in column
    ensures Position(column, c, v) < |column|
  {
    var ahead := set w <- column | Better(c, w, v);
    assert v !in ahead;
    SubsetSize(ahead, column);
  }

  /** A better value has a smaller position, and equal values share one. */
  lemma {:induction false} PositionFollowsValue(column: set<int>, c: Component, v: int, w: int)
    requires v in column && w in column
    ensures Better(c, v, w) <==> Position(column, c, v) < Position(column, c, w)
  {
    if Better(c, v, w) {
      Ahead(column, c, v, w);
    } else if Better(c, w, v) {
      Ahead(column, c, w, v);
    }
  }

  lemma {:induction false} Ahead(column: set<int>, c: Component, v: int, w: int)
    requires v in column && w in column && Better(c, v, w)
    ensures Position(column, c, v) < Position(column, c, w)
  {
    var a, b := set x <- column | Better(c, x, v), set x <- column | Better(c, x, w);
    assert v in b && v !in a;
    SubsetSize(a, b);
  }

  // ------------------------------------------------------------------ scores

  lemma {:induction false} ScoreInUnit(position: int, count: int)
    requires 0 <= position < count
    ensures 0 <= Score(position, count) <= ONE
    ensures position == 0 ==> Score(position, count) == ONE
    ensures position == count - 1 && count > 1 ==> Score(position, count) == 0
  {
    if count > 1 {
      var span := count - 1;
      HalfUpExact(ONE, span);
      HalfUpExact(0, span);
      ProductsGrow(ONE, span - position, span);
      HalfUpGrows((span - position) * ONE, span * ONE, span);
      HalfUpGrows(0, (span - position) * ONE, span);
      hide HalfUp;
    }
  }

  lemma {:induction false} ScoreFalls(p: int, q: int, count: int)
    requires 0 <= p <= q < count
    ensures Score(p, count) >= Score(q, count)
  {
    if count > 1 {
      ProductsGrow(ONE, count - 1 - q, count - 1 - p);
      HalfUpGrows((count - 1 - q) * ONE, (count - 1 - p) * ONE, count - 1);
      hide HalfUp;
    }
  }

  predicate Among(values: Metrics<int>, cs: seq<Candidate>) {
    exists i :: 0 <= i < |cs| && cs[i].values == values
  }

  lemma {:induction false} InColumn(cs: seq<Candidate>, values: Metrics<int>, c: Component)
    requires Among(values, cs)
    ensures values.Of(c) in Column(cs, c)
  {
    var i :| 0 <= i < |cs| && cs[i].values == values;
    assert cs[i] in cs;
  }

  lemma {:induction false} WeightedInRange(cs: seq<Candidate>, values: Metrics<int>, c: Component)
    requires Among(values, cs)
    ensures 0 <= RowOf(cs, values, c).weightedScore <= Weight(c) * (ONE / 100)
    ensures Position(Column(cs, c), c, values.Of(c)) == 0 ==> RowOf(cs, values, c).weightedScore == Weight(c) * (ONE / 100)
  {
    InColumn(cs, values, c);
    var column := Column(cs, c);
    PositionInRange(column, c, values.Of(c));
    ScoreInUnit(Position(column, c, values.Of(c)), |column|);
    var score := Score(Position(column, c, values.Of(c)), |column|);
    hide Position, Column, Score;
    WeightingBounded(c, score);
  }

  lemma {:induction false} WeightingBounded(c: Component, score: int)
    requires 0 <= score <= ONE
    ensures 0 <= HalfUp(Weight(c) * score, 100) <= Weight(c) * (ONE / 100)
    ensures score == ONE ==> HalfUp(Weight(c) * score, 100) == Weight(c) * (ONE / 100)
  {
    HalfUpExact(Weight(c) * (ONE / 100), 100);
    HalfUpExact(0, 100);
    ProductsGrow(Weight(c), 0, score);
    ProductsGrow(Weight(c), score, ONE);
    HalfUpGrows(0, Weight(c) * score, 100);
    HalfUpGrows(Weight(c) * score, Weight(c) * ONE, 100);
    hide HalfUp;
  }

  /** At least as good on every metric: six of them no lower, the drawdown no higher. */
  predicate WeaklyBetter(v: Metrics<int>, w: Metrics<int>) {
    && v.sharpe >= w.sharpe && v.sortino >= w.sortino && v.maxDrawdown <= w.maxDrawdown && v.profitFactor >= w.profitFactor
    && v.expectancy >= w.expectancy && v.oosConsistency >= w.oosConsistency && v.parameterRobustness >= w.parameterRobustness
  }

  lemma {:induction false} NowhereWorse(v: Metrics<int>, w: Metrics<int>)
    ensures WeaklyBetter(v, w) <==> forall c: Component :: !Better(c, w.Of(c), v.Of(c))
  {
    if forall c: Component :: !Better(c, w.Of(c), v.Of(c)) {
      assert !Better(SHARPE, w.Of(SHARPE), v.Of(SHARPE)) && !Better(SORTINO, w.Of(SORTINO), v.Of(SORTINO));
      assert !Better(MAX_DRAWDOWN, w.Of(MAX_DRAWDOWN), v.Of(MAX_DRAWDOWN)) && !Better(PROFIT_FACTOR, w.Of(PROFIT_FACTOR), v.Of(PROFIT_FACTOR));
      assert !Better(EXPECTANCY, w.Of(EXPECTANCY), v.Of(EXPECTANCY));
      assert !Better(OOS_CONSISTENCY, w.Of(OOS_CONSISTENCY), v.Of(OOS_CONSISTENCY));
      assert !Better(PARAMETER_ROBUSTNESS, w.Of(PARAMETER_ROBUSTNESS), v.Of(PARAMETER_ROBUSTNESS));
    }
  }

  /** Composite scores lie in [0, 1], and who is at least as good as everybody on every metric scores exactly 1. */
  lemma {:induction false} CompositeInUnit(cs: seq<Candidate>, values: Metrics<int>)
    requires Among(values, cs)
    ensures 0 <= Composite(cs, values) <= ONE
    ensures (forall x <- cs :: WeaklyBetter(values, x.values)) ==> Composite(cs, values) == ONE
  {
    if forall x <- cs :: WeaklyBetter(values, x.values) {
      NobodyBetter(cs, values);
    }
    hide Column, WeaklyBetter, Better, Composite;
    CompositeBounded(cs, values);
  }

  lemma {:induction false} NobodyBetter(cs: seq<Candidate>, values: Metrics<int>)
    requires forall x <- cs :: WeaklyBetter(values, x.values)
    ensures forall c: Component, v :: v in Column(cs, c) ==> !Better(c, v, values.Of(c))
  {
    hide WeaklyBetter, Better;
    forall c: Component, v | v in Column(cs, c) ensures !Better(c, v, values.Of(c)) {
      var x :| x in cs && x.values.Of(c) == v;
      NowhereWorse(values, x.values);
    }
  }

  lemma {:induction false} CompositeBounded(cs: seq<Candidate>, values: Metrics<int>)
    requires Among(values, cs)
    ensures 0 <= Composite(cs, values) <= ONE
    ensures (forall c: Component, v :: v in Column(cs, c) ==> !Better(c, v, values.Of(c))) ==> Composite(cs, values) == ONE
  {
    var f := Weighted(cs, values);
    assert forall c :: 0 <= f(c) <= Weight(c) * (ONE / 100) by {
      forall c ensures 0 <= f(c) <= Weight(c) * (ONE / 100) {
        WeightedInRange(cs, values, c);
      }
    }
    if forall c: Component, v :: v in Column(cs, c) ==> !Better(c, v, values.Of(c)) {
      assert forall c :: f(c) == Weight(c) * (ONE / 100) by {
        forall c ensures f(c) == Weight(c) * (ONE / 100) {
          WeightedInRange(cs, values, c);
          assert (set w <- Column(cs, c) | Better(c, w, values.Of(c))) == {};
        }
      }
      TotalOfWeights(f);
    }
    TotalInUnit(f);
    hide Weighted, Total, Weight;
  }

  lemma {:induction false} TotalInUnit(f: Component -> int)
    requires forall c :: 0 <= f(c) <= Weight(c) * (ONE / 100)
    ensures 0 <= Total(f) <= ONE
  {
  }

  lemma {:induction false} TotalOfWeights(f: Component -> int)
    requires forall c :: f(c) == Weight(c) * (ONE / 100)
    ensures Total(f) == ONE
  {
  }

  /** Whoever is at least as good on every metric has no lower composite score, in spite of the rounding of each term. */
  lemma {:induction false} DominanceIsRespected(cs: seq<Candidate>, v: Metrics<int>, w: Metrics<int>)
    requires Among(v, cs) && Among(w, cs) && WeaklyBetter(v, w)
    ensures Composite(cs, v) >= Composite(cs, w)
  {
    NowhereWorse(v, w);
    hide WeaklyBetter, Better;
    forall c ensures Weighted(cs, v)(c) >= Weighted(cs, w)(c) {
      WeightedRespects(cs, v, w, c);
    }
    hide Weighted;
  }

  lemma {:induction false} WeightedRespects(cs: seq<Candidate>, v: Metrics<int>, w: Metrics<int>, c: Component)
    requires Among(v, cs) && Among(w, cs) && !Better(c, w.Of(c), v.Of(c))
    ensures RowOf(cs, v, c).weightedScore >= RowOf(cs, w, c).weightedScore
  {
    InColumn(cs, v, c);
    InColumn(cs, w, c);
    var column := Column(cs, c);
    PositionFollowsValue(column, c, w.Of(c), v.Of(c));
    PositionInRange(column, c, v.Of(c));
    PositionInRange(column, c, w.Of(c));
    var p, q := Position(column, c, v.Of(c)), Position(column, c, w.Of(c));
    ScoreFalls(p, q, |column|);
    hide Position, Column, Score;
    ProductsGrow(Weight(c), Score(q, |column|), Score(p, |column|));
    HalfUpGrows(Weight(c) * Score(q, |column|), Weight(c) * Score(p, |column|), 100);
    hide HalfUp;
  }

  // -------------------------------------------------------------- comparator

  /** The comparator, read as a lexicographic order. */
  predicate Precedes(l: Scored, r: Scored) {
    var (v, w) := (l.values, r.values);
    || l.composite > r.composite
    || (l.composite == r.composite
        && (|| v.maxDrawdown < w.maxDrawdown
            || (v.maxDrawdown == w.maxDrawdown
                && (|| v.sharpe > w.sharpe
                    || (v.sharpe == w.sharpe
                        && (|| v.sortino > w.sortino
                            || (v.sortino == w.sortino
                                && (|| v.profitFactor > w.profitFactor
                                    || (v.profitFactor == w.profitFactor && LexLess(l.id, r.id))))))))))
  }

  predicate LevelWith(l: Scored, r: Scored) {
    && l.composite == r.composite && l.values.maxDrawdown == r.values.maxDrawdown && l.values.sharpe == r.values.sharpe
    && l.values.sortino == r.values.sortino && l.values.profitFactor == r.values.profitFactor
  }

  predicate Inseparable(l: Scored, r: Scored) {
    LevelWith(l, r) && l.id == r.id
  }

  lemma {:induction false} FirstLevelUnfolds(l: Scored, r: Scored, levels: seq<Level>)
    ensures levels == [] ==> FirstLevel(l, r, levels) == None
    ensures levels != [] ==> FirstLevel(l, r, levels) == if CompareAtLevel(l, r, levels[0]) != 0 then Some(levels[0])
                                                         else FirstLevel(l, r, levels[1..])
  {
  }

  /** The levels, tried one after the other. */
  lemma {:induction false} FirstLevelIs(l: Scored, r: Scored)
    ensures var at := (level: Level) => CompareAtLevel(l, r, level) != 0;
            FirstLevel(l, r, TIE_BREAK_ORDER) ==
            if at(LOWER_MAX_DRAWDOWN) then Some(LOWER_MAX_DRAWDOWN)
            else if at(HIGHER_SHARPE) then Some(HIGHER_SHARPE)
            else if at(HIGHER_SORTINO) then Some(HIGHER_SORTINO)
            else if at(HIGHER_PROFIT_FACTOR) then Some(HIGHER_PROFIT_FACTOR)
            else if at(LEXICAL_VALIDATION_SUBJECT_ID) then Some(LEXICAL_VALIDATION_SUBJECT_ID)
            else None
  {
    hide CompareAtLevel;
    var levels := TIE_BREAK_ORDER;
    FirstLevelUnfolds(l, r, levels);
    FirstLevelUnfolds(l, r, levels[1..]);
    FirstLevelUnfolds(l, r, levels[1..][1..]);
    FirstLevelUnfolds(l, r, levels[1..][1..][1..]);
    FirstLevelUnfolds(l, r, levels[1..][1..][1..][1..]);
    FirstLevelUnfolds(l, r, levels[1..][1..][1..][1..][1..]);
    hide FirstLevel;
  }

  /** The comparator is a strict total order: it is antisymmetric, it says 0 only of candidates with one id, and what it
      puts first is exactly what precedes. */
  lemma {:induction false} ComparatorIsTotal(l: Scored, r: Scored)
    ensures Compare(l, r) in {-1, 0, 1} && Compare(r, l) == -Compare(l, r)
    ensures Compare(l, r) == -1 <==> Precedes(l, r)
    ensures Compare(l, r) == 0 <==> Inseparable(l, r)
  {
    FirstLevelIs(l, r);
    FirstLevelIs(r, l);
    LexTotal(l.id, r.id);
    LexIrreflexive(l.id);
    if LexLess(l.id, r.id) && LexLess(r.id, l.id) {
      LexTransitive(l.id, r.id, l.id);
    }
    hide FirstLevel, LexLess;
  }

  lemma {:induction false} PrecedesTransitive(a: Scored, b: Scored, c: Scored)
    requires Precedes(a, b) && Precedes(b, c)
    ensures Precedes(a, c)
  {
    if LexLess(a.id, b.id) && LexLess(b.id, c.id) {
      LexTransitive(a.id, b.id, c.id);
    }
    hide LexLess;
  }

  lemma {:induction false} BeforeIsStrict()
    ensures Strict(Before)
  {
    hide Compare, Precedes;
    forall a ensures !Before(a, a) {
      ComparatorIsTotal(a, a);
    }
    forall a, b, c | Before(a, b) && Before(b, c) ensures Before(a, c) {
      ComparatorIsTotal(a, b);
      ComparatorIsTotal(b, c);
      PrecedesTransitive(a, b, c);
      ComparatorIsTotal(a, c);
    }
  }

  // ------------------------------------------------------------ permutations

  lemma {:induction false} ScoredAreDecided(cs: seq<Candidate>)
    requires UniqueCandidates(cs)
    ensures Decided(ScoredAll(cs), Before)
  {
    var xs := ScoredAll(cs);
    hide Composite, Compare;
    forall i, j | 0 <= i < j < |xs| ensures Before(xs[i], xs[j]) || Before(xs[j], xs[i]) {
      ComparatorIsTotal(xs[i], xs[j]);
    }
  }

  ghost predicate SameCandidates(a: seq<Candidate>, b: seq<Candidate>) {
    |a| == |b| && forall x :: x in a <==> x in b
  }

  lemma {:induction false} SameColumns(a: seq<Candidate>, b: seq<Candidate>, values: Metrics<int>)
    requires SameCandidates(a, b)
    ensures Composite(a, values) == Composite(b, values) && RowsOf(a, values) == RowsOf(b, values)
  {
    forall c: Component ensures Column(a, c) == Column(b, c) {
    }
    hide Column;
    forall c ensures Weighted(a, values)(c) == Weighted(b, values)(c) {
    }
    hide RowOf;
    assert forall c: Component :: RowOf(a, values, c) == RowOf(b, values, c) by {
      forall c: Component ensures RowOf(a, values, c) == RowOf(b, values, c) {
        SameRow(a, b, values, c);
      }
    }
  }

  lemma {:induction false} SameRow(a: seq<Candidate>, b: seq<Candidate>, values: Metrics<int>, c: Component)
    requires Column(a, c) == Column(b, c)
    ensures RowOf(a, values, c) == RowOf(b, values, c)
  {
  }

  lemma {:induction false} ScoredOccur(a: seq<Candidate>, b: seq<Candidate>, x: Scored)
    requires SameCandidates(a, b) && x in ScoredAll(a)
    ensures x in ScoredAll(b)
  {
    hide Composite;
    var i :| 0 <= i < |a| && ScoredAll(a)[i] == x;
    assert a[i] in b;
    var j :| 0 <= j < |b| && b[j] == a[i];
    SameColumns(a, b, a[i].values);
    assert ScoredAll(b)[j] == x;
  }

  /** The order, the ranks, the tie groups and the scores do not depend on the order of the input. */
  lemma {:induction false} RankedResultsForgetOrder(a: seq<Candidate>, b: seq<Candidate>)
    requires SameCandidates(a, b) && UniqueCandidates(a) && UniqueCandidates(b)
    ensures Ordering(a) == Ordering(b) && RankedResults(a) == RankedResults(b)
  {
    BeforeIsStrict();
    ScoredAreDecided(a);
    ScoredAreDecided(b);
    hide Composite, Before;
    forall x ensures x in ScoredAll(a) <==> x in ScoredAll(b) {
      if x in ScoredAll(a) {
        ScoredOccur(a, b, x);
      }
      if x in ScoredAll(b) {
        ScoredOccur(b, a, x);
      }
    }
    SortForgetsOrder(ScoredAll(a), ScoredAll(b), Before);
    SameResults(a, b);
  }

  lemma {:induction false} SameResults(a: seq<Candidate>, b: seq<Candidate>)
    requires SameCandidates(a, b) && Ordering(a) == Ordering(b)
    ensures RankedResults(a) == RankedResults(b)
  {
    var ordered := Ordering(a);
    hide Ordering, RowsOf, TieSize, ResolveTieBreakLevel;
    forall k | 0 <= k < |ordered| ensures RankedAt(a, ordered, k) == RankedAt(b, ordered, k) {
      SameColumns(a, b, ordered[k].values);
    }
    hide RankedAt;
  }

  lemma {:induction false} RankableContents(es: seq<Evidence>, x: Candidate)
    ensures x in Rankable(es) <==> exists e <- es :: Complete(e.metrics) && x == Candidate(e.id, ValuesOf(e.metrics))
  {
    if es != [] {
      var front, last := es[..|es| - 1], es[|es| - 1];
      RankableContents(front, x);
      assert es == front + [last];
      hide ValuesOf, Complete;
    }
  }

  // ------------------------------------------------------- one pair, all pairs

  lemma {:induction false} InsufficientContents(es: seq<Evidence>, x: Evidence)
    ensures x in Insufficient(es) <==> x in es && !Complete(x.metrics)
  {
    if es != [] {
      InsufficientContents(es[..|es| - 1], x);
      assert es == es[..|es| - 1] + [es[|es| - 1]];
      hide Complete;
    }
  }

  lemma {:induction false} BucketContents(es: seq<Evidence>, pair: string, x: Evidence)
    ensures multiset(Bucket(es, pair))[x] == if x.pair == pair then multiset(es)[x] else 0
  {
    if es != [] {
      BucketContents(es[..|es| - 1], pair, x);
      assert es == es[..|es| - 1] + [es[|es| - 1]];
    }
  }

  /** A selection, in any order, from evidence with unique ids has unique ids. */
  lemma {:induction false} SelectionIsUnique(a: seq<Evidence>, b: seq<Evidence>)
    requires multiset(a) <= multiset(b)
    ensures UniqueIds(b) ==> UniqueIds(a)
  {
    if !UniqueIds(a) {
      var i, j :| 0 <= i < j < |a| && a[i].id == a[j].id;
      Clash(a, b, i, j);
    }
  }

  lemma {:induction false} Clash(a: seq<Evidence>, b: seq<Evidence>, i: nat, j: nat)
    requires multiset(a) <= multiset(b) && i < j < |a| && a[i].id == a[j].id
    ensures !UniqueIds(b)
  {
    if a[i] == a[j] {
      RepeatedMeansTwice(a, i, j);
      var k, l := TwiceMeansRepeated(b, a[i]);
      assert b[k].id == b[l].id;
    } else {
      assert a[i] in multiset(b) && a[j] in multiset(b);
      var k :| 0 <= k < |b| && b[k] == a[i];
      var l :| 0 <= l < |b| && b[l] == a[j];
      assert b[k].id == b[l].id;
    }
  }

  lemma {:induction false} RankableAreUnique(es: seq<Evidence>)
    requires UniqueIds(es)
    ensures UniqueCandidates(Rankable(es))
  {
    if es != [] {
      var front, last := es[..|es| - 1], es[|es| - 1];
      RankableAreUnique(front);
      hide Complete, ValuesOf;
      forall x | x in Rankable(front) ensures x.id != last.id {
        RankableContents(front, x);
        var e :| e in front && Complete(e.metrics) && x == Candidate(e.id, ValuesOf(e.metrics));
        var k :| 0 <= k < |front| && front[k] == e;
        assert es[k].id != es[|es| - 1].id;
      }
    }
  }

  lemma {:induction false} InsufficientAreUnique(es: seq<Evidence>)
    requires UniqueIds(es)
    ensures UniqueIds(Insufficient(es))
  {
    if es != [] {
      var front, last := es[..|es| - 1], es[|es| - 1];
      InsufficientAreUnique(front);
      hide Complete;
      forall x | x in Insufficient(front) ensures x.id != last.id {
        InsufficientContents(front, x);
        var k :| 0 <= k < |front| && front[k] == x;
        assert es[k].id != es[|es| - 1].id;
      }
    }
  }

  lemma {:induction false} DistinctSameSize<T>(a: seq<T>, b: seq<T>)
    requires NoDuplicates(a) && NoDuplicates(b) && forall x :: x in a <==> x in b
    ensures |a| == |b|
  {
    forall x ensures multiset(a)[x] == multiset(b)[x] {
      OnceEach(a, x);
      OnceEach(b, x);
    }
    assert multiset(a) == multiset(b);
    PermutationContents(a, b);
  }

  lemma {:induction false} OnceEach<T>(a: seq<T>, x: T)
    requires NoDuplicates(a)
    ensures multiset(a)[x] == if x in a then 1 else 0
  {
    if a != [] {
      var front := a[..|a| - 1];
      OnceEach(front, x);
      assert a == front + [a[|a| - 1]];
      assert x in front ==> exists k :: 0 <= k < |front| && front[k] == x && a[k] == x;
    }
  }

  lemma {:induction false} SameRankable(a: seq<Evidence>, b: seq<Evidence>)
    requires multiset(a) == multiset(b) && UniqueIds(a) && UniqueIds(b)
    ensures SameCandidates(Rankable(a), Rankable(b)) && UniqueCandidates(Rankable(a)) && UniqueCandidates(Rankable(b))
  {
    PermutationContents(a, b);
    RankableAreUnique(a);
    RankableAreUnique(b);
    hide Rankable, Complete, ValuesOf;
    forall x ensures x in Rankable(a) <==> x in Rankable(b) {
      RankableContents(a, x);
      RankableContents(b, x);
    }
    DistinctSameSize(Rankable(a), Rankable(b));
  }

  lemma {:induction false} IdLessIsStrict()
    ensures Strict(IdLess)
  {
    LexStrict();
    hide LexLess;
  }

  lemma {:induction false} IdsDecide(es: seq<Evidence>)
    requires UniqueIds(es)
    ensures Decided(es, IdLess)
  {
    hide LexLess;
    forall i, j | 0 <= i < j < |es| ensures IdLess(es[i], es[j]) || IdLess(es[j], es[i]) {
      LexTotal(es[i].id, es[j].id);
    }
  }

  lemma {:induction false} SameInsufficient(a: seq<Evidence>, b: seq<Evidence>)
    requires multiset(a) == multiset(b) && UniqueIds(a) && UniqueIds(b)
    ensures InsufficientResults(a) == InsufficientResults(b)
  {
    PermutationContents(a, b);
    InsufficientAreUnique(a);
    InsufficientAreUnique(b);
    IdLessIsStrict();
    IdsDecide(Insufficient(a));
    IdsDecide(Insufficient(b));
    hide IdLess, Complete;
    forall x ensures x in Insufficient(a) <==> x in Insufficient(b) {
      InsufficientContents(a, x);
      InsufficientContents(b, x);
    }
    hide Insufficient;
    DistinctSameSize(Insufficient(a), Insufficient(b));
    SortForgetsOrder(Insufficient(a), Insufficient(b), IdLess);
  }

  lemma {:induction false} RunForgetsOrder(pair: string, planId: string, a: seq<Evidence>, b: seq<Evidence>)
    requires multiset(a) == multiset(b) && UniqueIds(a) && UniqueIds(b)
    ensures RunOf(pair, planId, a) == RunOf(pair, planId, b)
  {
    PermutationContents(a, b);
    SameRankable(a, b);
    hide RankedResults, Rankable;
    RankedResultsForgetOrder(Rankable(a), Rankable(b));
    hide InsufficientResults;
    SameInsufficient(a, b);
  }

  lemma {:induction false} DistinctContents<T>(values: seq<T>)
    ensures NoDuplicates(Distinct(values)) && forall x :: x in Distinct(values) <==> x in values
  {
    if values != [] {
      DistinctContents(values[..|values| - 1]);
      assert values == values[..|values| - 1] + [values[|values| - 1]];
    }
  }

  lemma {:induction false} NamesDecide(xs: seq<string>)
    requires NoDuplicates(xs)
    ensures Decided(xs, LexLess)
  {
    forall i, j | 0 <= i < j < |xs| ensures LexLess(xs[i], xs[j]) || LexLess(xs[j], xs[i]) {
      LexTotal(xs[i], xs[j]);
    }
  }

  lemma {:induction false} PairNamesContents(es: seq<Evidence>, pair: string)
    ensures pair in PairNames(es) <==> exists e <- es :: e.pair == pair
  {
    if exists e <- es :: e.pair == pair {
      var e :| e in es && e.pair == pair;
      var k :| 0 <= k < |es| && es[k] == e;
      assert PairNames(es)[k] == pair;
    }
  }

  lemma {:induction false} SamePairs(a: seq<Evidence>, b: seq<Evidence>)
    requires multiset(a) == multiset(b)
    ensures Pairs(a) == Pairs(b)
  {
    PermutationContents(a, b);
    var xs, ys := Distinct(PairNames(a)), Distinct(PairNames(b));
    DistinctContents(PairNames(a));
    DistinctContents(PairNames(b));
    hide PairNames, LexLess, Distinct;
    forall pair ensures pair in xs <==> pair in ys {
      PairNamesContents(a, pair);
      PairNamesContents(b, pair);
    }
    DistinctSameSize(xs, ys);
    LexStrict();
    NamesDecide(xs);
    NamesDecide(ys);
    SortForgetsOrder(xs, ys, LexLess);
  }

  lemma {:induction false} SameRun(a: seq<Evidence>, b: seq<Evidence>, pair: string)
    requires multiset(a) == multiset(b) && UniqueIds(a) && OnePlanEach(a)
    ensures PairRun(a, pair) == PairRun(b, pair)
  {
    var x, y := Bucket(a, pair), Bucket(b, pair);
    forall e ensures multiset(x)[e] == multiset(y)[e] && multiset(x)[e] <= multiset(a)[e] && (e in multiset(x) ==> e.pair == pair) {
      BucketContents(a, pair, e);
      BucketContents(b, pair, e);
    }
    assert multiset(x) == multiset(y);
    hide Bucket, RunOf;
    SelectionIsUnique(x, a);
    SelectionIsUnique(y, a);
    PermutationContents(x, y);
    if x != [] {
      assert x[0] in multiset(x) && y[0] in multiset(x);
      assert x[0] in multiset(a) && y[0] in multiset(a);
    }
    RunForgetsOrder(pair, PlanOf(x), x, y);
  }

  /** The whole run set, errors included, is a function of which evidence there is, not of the order it comes in. */
  lemma {:induction false} RunSetForgetsOrder(a: seq<Evidence>, b: seq<Evidence>)
    requires multiset(a) == multiset(b)
    ensures RunSetOf(a) == RunSetOf(b)
  {
    PermutationContents(a, b);
    SelectionIsUnique(a, b);
    SelectionIsUnique(b, a);
    SamePairs(a, b);
    hide PairRun, Pairs, UniqueIds;
    if UniqueIds(a) && OnePlanEach(a) {
      forall pair ensures PairRun(a, pair) == PairRun(b, pair) {
        SameRun(a, b, pair);
      }
    }
  }

  // ---------------------------------------------------------------- dominance

  /** A candidate at least as good on every metric is ranked above, unless the two are level on the composite score and on all
      four tie-break metrics; then, and only then, their ids decide. */
  lemma {:induction false} DominatorRanksAbove(cs: seq<Candidate>, k: nat, l: nat)
    requires UniqueCandidates(cs) && k < |Ordering(cs)| && l < |Ordering(cs)| && k != l
    requires WeaklyBetter(Ordering(cs)[k].values, Ordering(cs)[l].values)
    ensures k < l || (LevelWith(Ordering(cs)[k], Ordering(cs)[l]) && LexLess(Ordering(cs)[l].id, Ordering(cs)[k].id))
  {
    var x, y := Ordering(cs)[k], Ordering(cs)[l];
    OrderingAscends(cs);
    OrderingScored(cs, k);
    OrderingScored(cs, l);
    ComparatorIsTotal(y, x);
    assert l < k ==> Before(y, x);
    hide Ordering, ScoredAll, Composite, Precedes, LevelWith, WeaklyBetter, LexLess, Compare;
    DominanceIsRespected(cs, x.values, y.values);
    DominatedCannotPrecede(x, y);
  }

  lemma {:induction false} OrderingAscends(cs: seq<Candidate>)
    requires UniqueCandidates(cs)
    ensures Ascending(Ordering(cs), Before) && |Ordering(cs)| == |cs|
  {
    hide Composite, Before;
    BeforeIsStrict();
    ScoredAreDecided(cs);
    SortAscends(ScoredAll(cs), Before);
    SortContents(ScoredAll(cs), Before);
  }

  lemma {:induction false} OrderingScored(cs: seq<Candidate>, k: nat)
    requires k < |Ordering(cs)|
    ensures Among(Ordering(cs)[k].values, cs) && Ordering(cs)[k].composite == Composite(cs, Ordering(cs)[k].values)
  {
    hide Composite, Among, Before;
    SortContents(ScoredAll(cs), Before);
    ScoredAreScored(cs, Ordering(cs)[k]);
  }

  lemma {:induction false} DominatedCannotPrecede(x: Scored, y: Scored)
    requires WeaklyBetter(x.values, y.values) && x.composite >= y.composite
    ensures Precedes(y, x) ==> LevelWith(x, y) && LexLess(y.id, x.id)
  {
    hide LexLess;
  }

  lemma {:induction false} ScoredAreScored(cs: seq<Candidate>, x: Scored)
    requires x in ScoredAll(cs)
    ensures Among(x.values, cs) && x.composite == Composite(cs, x.values)
  {
    hide Composite;
    var i :| 0 <= i < |cs| && ScoredAll(cs)[i] == x;
    assert cs[i].values == x.values;
  }
}
