/** Model of src/ranking: candidate-relative dense ordinal scores, their quantized weighted sum, and the total order
    with its frozen tie-breaks.

    Metric values are canonical decimals, held as whole multiples of 10^-18. */
module Ranking {
  import opened Common
  import opened Orders

  datatype Component = SHARPE | SORTINO | MAX_DRAWDOWN | PROFIT_FACTOR | EXPECTANCY | OOS_CONSISTENCY | PARAMETER_ROBUSTNESS

  /** In policy order. */
  const COMPONENTS: seq<Component> :=
    [SHARPE, SORTINO, MAX_DRAWDOWN, PROFIT_FACTOR, EXPECTANCY, OOS_CONSISTENCY, PARAMETER_ROBUSTNESS]

  datatype Metrics<+T> = Metrics(sharpe: T, sortino: T, maxDrawdown: T, profitFactor: T, expectancy: T, oosConsistency: T,
                                 parameterRobustness: T)
  {
    function Of(c: Component): T {
      match c
      case SHARPE => sharpe
      case SORTINO => sortino
      case MAX_DRAWDOWN => maxDrawdown
      case PROFIT_FACTOR => profitFactor
      case EXPECTANCY => expectancy
      case OOS_CONSISTENCY => oosConsistency
      case PARAMETER_ROBUSTNESS => parameterRobustness
    }
  }

  /** In hundredths. */
  function Weight(c: Component): int {
    match c
    case SHARPE => 25
    case SORTINO => 15
    case MAX_DRAWDOWN => 20
    case PROFIT_FACTOR => 15
    case EXPECTANCY => 10
    case OOS_CONSISTENCY => 10
    case PARAMETER_ROBUSTNESS => 5
  }

  /** 1, in units of the published scale. */
  const ONE: int := 1_000_000_000_000_000_000

  /** The quotient of a non-negative by a positive number, rounded half up. */
  function HalfUp(n: int, d: int): int
    requires d > 0
  {
    (2 * n + d) / (2 * d)
  }

  // ----------------------------------------------------------- normalization

  datatype Candidate = Candidate(id: string, values: Metrics<int>)

  predicate Better(c: Component, v: int, w: int) {
    if c == MAX_DRAWDOWN then v < w else v > w
  }

  function BetterFirst(c: Component): (int, int) -> bool {
    (v: int, w: int) => Better(c, v, w)
  }

  /** `[...new Set(values)]`. */
  function Distinct<T(==)>(values: seq<T>): seq<T> {
    if values == [] then []
    else
      var front := Distinct(values[..|values| - 1]);
      if values[|values| - 1] in front then front else front + [values[|values| - 1]]
  }

  function OrderDistinctValues(values: seq<int>, c: Component): seq<int> {
    Sort(Distinct(values), BetterFirst(c))
  }

  datatype Normalized = Normalized(ordinalPosition: int, distinctValueCount: int, componentScore: int)

  /** How many of the distinct values are better. */
  ghost function Position(column: set<int>, c: Component, v: int): nat {
    |set w <- column | Better(c, w, v)|
  }

  function Score(position: int, count: int): int {
    if count <= 1 then ONE else HalfUp((count - 1 - position) * ONE, count - 1)
  }

  ghost function NormalizedOf(column: set<int>, c: Component, v: int): Normalized {
    Normalized(Position(column, c, v), |column|, Score(Position(column, c, v), |column|))
  }

  ghost function Column(cs: seq<Candidate>, c: Component): set<int> {
    set x | x in cs :: x.values.Of(c)
  }

  // ----------------------------------------------------------------- scoring

  datatype Row = Row(component: Component, metricValue: int, normalized: Normalized, weightedScore: int)

  function BuildComponentScore(c: Component, v: int, n: Normalized): Row {
    Row(c, v, n, HalfUp(Weight(c) * n.componentScore, 100))
  }

  ghost function RowOf(cs: seq<Candidate>, values: Metrics<int>, c: Component): Row {
    BuildComponentScore(c, values.Of(c), NormalizedOf(Column(cs, c), c, values.Of(c)))
  }

  ghost function RowsOf(cs: seq<Candidate>, values: Metrics<int>): seq<Row> {
    seq(|COMPONENTS|, i requires 0 <= i < |COMPONENTS| => RowOf(cs, values, COMPONENTS[i]))
  }

  function Total(f: Component -> int): int {
    f(SHARPE) + f(SORTINO) + f(MAX_DRAWDOWN) + f(PROFIT_FACTOR) + f(EXPECTANCY) + f(OOS_CONSISTENCY) + f(PARAMETER_ROBUSTNESS)
  }

  ghost function Weighted(cs: seq<Candidate>, values: Metrics<int>): Component -> int {
    (c: Component) => RowOf(cs, values, c).weightedScore
  }

  ghost function Composite(cs: seq<Candidate>, values: Metrics<int>): int {
    Total(Weighted(cs, values))
  }

  // --------------------------------------------------------------- tie-breaks

  datatype Scored = Scored(id: string, composite: int, values: Metrics<int>)

  datatype Level = LOWER_MAX_DRAWDOWN | HIGHER_SHARPE | HIGHER_SORTINO | HIGHER_PROFIT_FACTOR | LEXICAL_VALIDATION_SUBJECT_ID

  const TIE_BREAK_ORDER: seq<Level> :=
    [LOWER_MAX_DRAWDOWN, HIGHER_SHARPE, HIGHER_SORTINO, HIGHER_PROFIT_FACTOR, LEXICAL_VALIDATION_SUBJECT_ID]

  function CompareDecimals(v: int, w: int): int {
    if v < w then -1 else if v > w then 1 else 0
  }

  function CompareAtLevel(l: Scored, r: Scored, level: Level): int {
    match level
    case LOWER_MAX_DRAWDOWN => CompareDecimals(l.values.maxDrawdown, r.values.maxDrawdown)
    case HIGHER_SHARPE => -CompareDecimals(l.values.sharpe, r.values.sharpe)
    case HIGHER_SORTINO => -CompareDecimals(l.values.sortino, r.values.sortino)
    case HIGHER_PROFIT_FACTOR => -CompareDecimals(l.values.profitFactor, r.values.profitFactor)
    case LEXICAL_VALIDATION_SUBJECT_ID => if LexLess(l.id, r.id) then -1 else if LexLess(r.id, l.id) then 1 else 0
  }

  /** The first of the levels that separates two candidates. */
  function FirstLevel(l: Scored, r: Scored, levels: seq<Level>): Option<Level> {
    if levels == [] then None
    else if CompareAtLevel(l, r, levels[0]) != 0 then Some(levels[0])
    else FirstLevel(l, r, levels[1..])
  }

  function ResolveTieBreakLevel(l: Scored, r: Scored): Option<Level> {
    if l.composite != r.composite then None else FirstLevel(l, r, TIE_BREAK_ORDER)
  }

  function Compare(l: Scored, r: Scored): int {
    if l.composite != r.composite then -CompareDecimals(l.composite, r.composite)
    else
      match FirstLevel(l, r, TIE_BREAK_ORDER)
      case None => 0
      case Some(level) => CompareAtLevel(l, r, level)
  }

  predicate Before(l: Scored, r: Scored) {
    Compare(l, r) < 0
  }

  // ---------------------------------------------------------------- one pair

  datatype Reading = VALUE(value: int) | UNAVAILABLE(reason: string)

  datatype Evidence = Evidence(id: string, pair: string, planId: string, metrics: Metrics<Reading>)

  predicate Complete(m: Metrics<Reading>) {
    forall c <- COMPONENTS :: m.Of(c).VALUE?
  }

  function ValuesOf(m: Metrics<Reading>): Metrics<int>
    requires Complete(m)
  {
    assert forall i :: 0 <= i < |COMPONENTS| ==> COMPONENTS[i] in COMPONENTS;
    assert COMPONENTS[0] == SHARPE && COMPONENTS[1] == SORTINO && COMPONENTS[2] == MAX_DRAWDOWN && COMPONENTS[3] == PROFIT_FACTOR
           && COMPONENTS[4] == EXPECTANCY && COMPONENTS[5] == OOS_CONSISTENCY && COMPONENTS[6] == PARAMETER_ROBUSTNESS;
    Metrics(m.sharpe.value, m.sortino.value, m.maxDrawdown.value, m.profitFactor.value, m.expectancy.value, m.oosConsistency.value,
            m.parameterRobustness.value)
  }

  function Rankable(es: seq<Evidence>): seq<Candidate> {
    if es == [] then []
    else
      var last := es[|es| - 1];
      Rankable(es[..|es| - 1]) + (if Complete(last.metrics) then [Candidate(last.id, ValuesOf(last.metrics))] else [])
  }

  function Insufficient(es: seq<Evidence>): seq<Evidence> {
    if es == [] then []
    else Insufficient(es[..|es| - 1]) + (if Complete(es[|es| - 1].metrics) then [] else [es[|es| - 1]])
  }

  function Unavailable(m: Metrics<Reading>, cs: seq<Component>): seq<(Component, string)> {
    if cs == [] then []
    else (match m.Of(cs[0]) case VALUE(_) => [] case UNAVAILABLE(reason) => [(cs[0], reason)]) + Unavailable(m, cs[1..])
  }

  ghost function ScoredAll(cs: seq<Candidate>): seq<Scored> {
    seq(|cs|, i requires 0 <= i < |cs| => Scored(cs[i].id, Composite(cs, cs[i].values), cs[i].values))
  }

  ghost function Ordering(cs: seq<Candidate>): seq<Scored> {
    Sort(ScoredAll(cs), Before)
  }

  ghost function TieSize(ordered: seq<Scored>, composite: int): nat {
    |set j | 0 <= j < |ordered| && ordered[j].composite == composite|
  }

  predicate Leads(ordered: seq<Scored>, k: nat)
    requires k < |ordered|
  {
    k == 0 || ordered[k - 1].composite != ordered[k].composite
  }

  datatype Result =
    | Ranked(id: string, rows: seq<Row>, composite: int, rank: int, candidateCount: int, tieGroupSize: int, tieBreakLevel: Option<Level>)
    | InsufficientEvidence(id: string, unavailable: seq<(Component, string)>)

  ghost function RankedAt(cs: seq<Candidate>, ordered: seq<Scored>, k: nat): Result
    requires k < |ordered|
  {
    Ranked(ordered[k].id, RowsOf(cs, ordered[k].values), ordered[k].composite, k + 1, |ordered|, TieSize(ordered, ordered[k].composite),
           if Leads(ordered, k) then None else ResolveTieBreakLevel(ordered[k - 1], ordered[k]))
  }

  function InsufficientResult(e: Evidence): Result {
    InsufficientEvidence(e.id, Unavailable(e.metrics, COMPONENTS))
  }

  ghost function RankedResults(cs: seq<Candidate>): seq<Result> {
    var ordered := Ordering(cs);
    seq(|ordered|, k requires 0 <= k < |ordered| => RankedAt(cs, ordered, k))
  }

  predicate IdLess(a: Evidence, b: Evidence) {
    LexLess(a.id, b.id)
  }

  function InsufficientResults(es: seq<Evidence>): seq<Result> {
    var sorted := Sort(Insufficient(es), IdLess);
    seq(|sorted|, k requires 0 <= k < |sorted| => InsufficientResult(sorted[k]))
  }

  datatype Run = Run(pair: string, planId: string, candidateCount: int, rankedCount: int, results: seq<Result>)

  ghost function RunOf(pair: string, planId: string, es: seq<Evidence>): Run {
    Run(pair, planId, |es|, |Rankable(es)|, RankedResults(Rankable(es)) + InsufficientResults(es))
  }

  // --------------------------------------------------------------- all pairs

  ghost predicate UniqueIds(es: seq<Evidence>) {
    forall i, j :: 0 <= i < j < |es| ==> es[i].id != es[j].id
  }

  ghost predicate UniqueCandidates(cs: seq<Candidate>) {
    forall i, j :: 0 <= i < j < |cs| ==> cs[i].id != cs[j].id
  }

  function Bucket(es: seq<Evidence>, pair: string): seq<Evidence> {
    if es == [] then []
    else Bucket(es[..|es| - 1], pair) + (if es[|es| - 1].pair == pair then [es[|es| - 1]] else [])
  }

  function PairNames(es: seq<Evidence>): seq<string> {
    seq(|es|, i requires 0 <= i < |es| => es[i].pair)
  }

  function Pairs(es: seq<Evidence>): seq<string> {
    Sort(Distinct(PairNames(es)), LexLess)
  }

  ghost predicate OnePlanEach(es: seq<Evidence>) {
    forall x, y :: x in es && y in es && x.pair == y.pair ==> x.planId == y.planId
  }

  datatype Outcome = Composed(runs: seq<Run>) | DUPLICATE_RANKING_CANDIDATE | RANKING_EVIDENCE_CONFLICT

  ghost function PlanOf(es: seq<Evidence>): string {
    if es == [] then "" else es[0].planId
  }

  ghost function PairRun(es: seq<Evidence>, pair: string): Run {
    RunOf(pair, PlanOf(Bucket(es, pair)), Bucket(es, pair))
  }

  ghost function RunSetOf(es: seq<Evidence>): Outcome {
    if !UniqueIds(es) then DUPLICATE_RANKING_CANDIDATE
    else if !OnePlanEach(es) then RANKING_EVIDENCE_CONFLICT
    else
      var pairs := Pairs(es);
      Composed(seq(|pairs|, k requires 0 <= k < |pairs| => PairRun(es, pairs[k])))
  }
}
