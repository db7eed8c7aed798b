/** The ranking core's loops, each shown to compute what Ranking says. */
module RankingEngine {
  import opened Common
  import opened Orders
  import opened Ranking
  import opened RankingPolicy
  import opened RankingTheorems

  // ----------------------------------------------------------- normalization

  ghost predicate UniqueKeys(inputs: seq<(string, int)>) {
    forall i, j :: 0 <= i < j < |inputs| ==> inputs[i].0 != inputs[j].0
  }

  function ValuesIn(inputs: seq<(string, int)>): seq<int> {
    seq(|inputs|, i requires 0 <= i < |inputs| => inputs[i].1)
  }

  ghost function Elements<T>(xs: seq<T>): set<T> {
    set x | x in xs
  }

  lemma {:induction false} DistinctCount<T>(xs: seq<T>)
    requires NoDuplicates(xs)
    ensures |Elements(xs)| == |xs|
  {
    if xs != [] {
      var front, last := xs[..|xs| - 1], xs[|xs| - 1];
      DistinctCount(front);
      assert xs == front + [last];
      assert Elements(xs) == Elements(front) + {last};
      assert last !in front;
    }
  }

  lemma {:induction false} OrderedValues(values: seq<int>, c: Component)
    ensures var ordered := OrderDistinctValues(values, c);
            && Ascending(ordered, BetterFirst(c)) && NoDuplicates(ordered) && Elements(ordered) == Elements(values)
  {
    var xs, less := Distinct(values), BetterFirst(c);
    DistinctContents(values);
    BetterFirstIsStrict(c);
    BetterFirstDecides(xs, c);
    hide BetterFirst, Distinct;
    SortAscends(xs, less);
    SortContents(xs, less);
  }

  lemma {:induction false} BetterFirstIsStrict(c: Component)
    ensures Strict(BetterFirst(c))
  {
  }

  lemma {:induction false} BetterFirstDecides(xs: seq<int>, c: Component)
    requires NoDuplicates(xs)
    ensures Decided(xs, BetterFirst(c))
  {
  }

  lemma {:induction false} AscendingIndex<T(!new)>(xs: seq<T>, less: (T, T) -> bool, i: nat, k: nat)
    requires Strict(less) && Ascending(xs, less) && i < |xs| && k < |xs|
    ensures less(xs[i], xs[k]) <==> i < k
  {
  }

  /** The index of a value in the ordered list is the number of better values. */
  lemma {:induction false} IndexIsPosition(values: seq<int>, c: Component, k: nat)
    requires k < |OrderDistinctValues(values, c)|
    ensures var ordered := OrderDistinctValues(values, c);
            Position(Elements(values), c, ordered[k]) == k && |Elements(values)| == |ordered|
  {
    var ordered := OrderDistinctValues(values, c);
    OrderedValues(values, c);
    BetterFirstIsStrict(c);
    DistinctCount(ordered);
    DistinctCount(ordered[..k]);
    hide OrderDistinctValues;
    var ahead := set w <- Elements(values) | Better(c, w, ordered[k]);
    forall w ensures w in ahead <==> w in Elements(ordered[..k]) {
      if w in Elements(ordered[..k]) {
        var i :| 0 <= i < k && ordered[i] == w;
        assert BetterFirst(c)(ordered[i], ordered[k]);
      }
      if w in ahead {
        assert w in ordered;
        var i :| 0 <= i < |ordered| && ordered[i] == w;
        AscendingIndex(ordered, BetterFirst(c), i, k);
        assert w == ordered[..k][i];
      }
    }
    assert ahead == Elements(ordered[..k]);
  }

  /** Numbers the distinct values, best first. */
  method NumberValues(values: seq<int>, c: Component) returns (positions: map<int, int>, count: int)
    ensures values != [] ==> count >= 1
    ensures count == |set w | w in values|
    ensures forall v <- values :: v in positions && positions[v] == |set w | w in values && Beats(c, w, v)|
    ensures forall v <- values ::
              NormalizedOf(Elements(values), c, v) == Normalized(positions[v], count, Score(positions[v], count))
  {
    var ordered := OrderDistinctValues(values, c);
    OrderedValues(values, c);
    positions, count := map[], |ordered|;
    var k := 0;
    while k < |ordered|
      invariant 0 <= k <= |ordered|
      invariant forall j :: 0 <= j < k ==> ordered[j] in positions && positions[ordered[j]] == j
    {
      positions := positions[ordered[k] := k];
      k := k + 1;
    }
    hide NormalizedOf, OrderDistinctValues, Score, Ascending;
    forall v | v in values ensures v in positions &&
                                   NormalizedOf(Elements(values), c, v) == Normalized(positions[v], count, Score(positions[v], count)) {
      var i :| 0 <= i < |values| && values[i] == v;
      PositionFound(values, c, i);
    }
    if values != [] {
      PositionFound(values, c, 0);
    }
    OrderedCount(values, c);
    forall v | v in values ensures positions[v] == |set w | w in values && Beats(c, w, v)| {
      NormalizedCounts(values, c, v);
    }
  }

  lemma {:induction false} OrderedCount(values: seq<int>, c: Component)
    ensures |OrderDistinctValues(values, c)| == |set w | w in values|
  {
    hide OrderDistinctValues;
    OrderedValues(values, c);
    DistinctCount(OrderDistinctValues(values, c));
  }

  lemma {:induction false} NormalizedCounts(values: seq<int>, c: Component, v: int)
    requires v in values
    ensures NormalizedOf(Elements(values), c, v).ordinalPosition == |set w | w in values && Beats(c, w, v)|
  {
    hide NormalizedOf, Beats;
    NormalizedIsPlaced(Elements(values), c, v);
    assert (set w | w in values && Beats(c, w, v)) == (set w <- Elements(values) | Beats(c, w, v));
  }

  /** The normalized value of every input, by id; no id occurs twice. */
  ghost predicate Normalizes(m: map<string, Normalized>, inputs: seq<(string, int)>, column: set<int>, c: Component) {
    && UniqueKeys(inputs)
    && (forall id :: id in m <==> exists j :: 0 <= j < |inputs| && inputs[j].0 == id)
    && (forall j :: 0 <= j < |inputs| ==> m[inputs[j].0] == NormalizedOf(column, c, inputs[j].1))
  }

  lemma {:induction false} NormalizationGrows(m: map<string, Normalized>, inputs: seq<(string, int)>, column: set<int>, c: Component,
                                              input: (string, int))
    requires Normalizes(m, inputs, column, c)
    ensures input.0 !in m ==> Normalizes(m[input.0 := NormalizedOf(column, c, input.1)], inputs + [input], column, c)
    ensures input.0 in m ==> exists j :: 0 <= j < |inputs| && inputs[j].0 == input.0
  {
    hide NormalizedOf;
    var inputs' := inputs + [input];
    assert inputs'[|inputs|] == input;
    forall id | id in m && input.0 !in m ensures exists j :: 0 <= j < |inputs'| && inputs'[j].0 == id {
      var j :| 0 <= j < |inputs| && inputs[j].0 == id;
      assert inputs'[j].0 == id;
    }
  }

  method NormalizeComponent(c: Component, inputs: seq<(string, int)>) returns (r: Option<map<string, Normalized>>)
    ensures r.Some? <==> inputs != [] && UniqueKeys(inputs)
    ensures r.Some? ==> forall id :: id in r.value <==> exists j :: 0 <= j < |inputs| && inputs[j].0 == id
    ensures r.Some? ==> forall j :: 0 <= j < |inputs| ==>
              Placed(r.value[inputs[j].0], set i | 0 <= i < |inputs| :: inputs[i].1, c, inputs[j].1)
    ensures r.Some? ==> Normalizes(r.value, inputs, Elements(ValuesIn(inputs)), c)
  {
    if inputs == [] {
      return None;
    }
    var values := ValuesIn(inputs);
    var positions, count := NumberValues(values, c);
    hide Score, NormalizedOf, Elements;
    var result: map<string, Normalized> := map[];
    var i := 0;
    while i < |inputs|
      invariant 0 <= i <= |inputs| && Normalizes(result, inputs[..i], Elements(values), c)
    {
      var (id, v) := inputs[i];
      assert values[i] == v;
      NormalizationGrows(result, inputs[..i], Elements(values), c, inputs[i]);
      if id in result {
        assert exists j :: 0 <= j < i && inputs[..i][j].0 == inputs[i].0;
        return None;
      }
      result := result[id := Normalized(positions[v], count, Score(positions[v], count))];
      i := i + 1;
      assert inputs[..i] == inputs[..i - 1] + [inputs[i - 1]];
    }
    assert inputs[..i] == inputs;
    NormalizedArePlaced(result, inputs, c);
    return Some(result);
  }

  lemma {:induction false} NormalizedArePlaced(m: map<string, Normalized>, inputs: seq<(string, int)>, c: Component)
    requires Normalizes(m, inputs, Elements(ValuesIn(inputs)), c)
    ensures forall id :: id in m <==> exists j :: 0 <= j < |inputs| && inputs[j].0 == id
    ensures forall j :: 0 <= j < |inputs| ==> Placed(m[inputs[j].0], set i | 0 <= i < |inputs| :: inputs[i].1, c, inputs[j].1)
  {
    hide NormalizedOf, Placed;
    var column := Elements(ValuesIn(inputs));
    SameColumn(inputs);
    forall j | 0 <= j < |inputs| ensures Placed(m[inputs[j].0], column, c, inputs[j].1) {
      assert ValuesIn(inputs)[j] in column;
      NormalizedIsPlaced(column, c, inputs[j].1);
    }
  }

  lemma {:induction false} SameColumn(inputs: seq<(string, int)>)
    ensures Elements(ValuesIn(inputs)) == set i | 0 <= i < |inputs| :: inputs[i].1
  {
    var values := ValuesIn(inputs);
    forall x | x in Elements(values) ensures exists i :: 0 <= i < |inputs| && inputs[i].1 == x {
      var i :| 0 <= i < |values| && values[i] == x;
      assert inputs[i].1 == x;
    }
    forall i | 0 <= i < |inputs| ensures inputs[i].1 in Elements(values) {
      assert values[i] in values;
    }
  }

  lemma {:induction false} PositionFound(values: seq<int>, c: Component, i: nat)
    requires i < |values|
    ensures var ordered := OrderDistinctValues(values, c);
            exists k :: 0 <= k < |ordered| && ordered[k] == values[i]
                        && NormalizedOf(Elements(values), c, values[i]) == Normalized(k, |ordered|, Score(k, |ordered|))
  {
    var ordered := OrderDistinctValues(values, c);
    OrderedValues(values, c);
    assert values[i] in Elements(ordered);
    var k :| 0 <= k < |ordered| && ordered[k] == values[i];
    IndexIsPosition(values, c, k);
  }

  // ----------------------------------------------------------------- scoring

  ghost function SumOver(cs: seq<Component>, f: Component -> int): int {
    if cs == [] then 0 else SumOver(cs[..|cs| - 1], f) + f(cs[|cs| - 1])
  }

  lemma {:induction false} SumIsTotal(f: Component -> int)
    ensures SumOver(COMPONENTS, f) == Total(f)
  {
    assert SumOver(COMPONENTS[..1], f) == f(SHARPE) by {
      assert COMPONENTS[..1][..0] == [];
    }
    assert SumOver(COMPONENTS[..2], f) == f(SHARPE) + f(SORTINO) by {
      assert COMPONENTS[..2][..1] == COMPONENTS[..1];
    }
    assert SumOver(COMPONENTS[..3], f) == f(SHARPE) + f(SORTINO) + f(MAX_DRAWDOWN) by {
      assert COMPONENTS[..3][..2] == COMPONENTS[..2];
    }
    assert SumOver(COMPONENTS[..4], f) == f(SHARPE) + f(SORTINO) + f(MAX_DRAWDOWN) + f(PROFIT_FACTOR) by {
      assert COMPONENTS[..4][..3] == COMPONENTS[..3];
    }
    assert SumOver(COMPONENTS[..5], f) == f(SHARPE) + f(SORTINO) + f(MAX_DRAWDOWN) + f(PROFIT_FACTOR) + f(EXPECTANCY) by {
      assert COMPONENTS[..5][..4] == COMPONENTS[..4];
    }
    assert SumOver(COMPONENTS[..6], f) == Total(f) - f(PARAMETER_ROBUSTNESS) by {
      assert COMPONENTS[..6][..5] == COMPONENTS[..5];
    }
    assert COMPONENTS[..7] == COMPONENTS && COMPONENTS[..7][..6] == COMPONENTS[..6];
  }

  ghost predicate EachOnce(rows: seq<Row>) {
    && (forall i, j :: 0 <= i < j < |rows| ==> rows[i].component != rows[j].component)
    && (forall c <- COMPONENTS :: exists i :: 0 <= i < |rows| && rows[i].component == c)
  }

  /** The rows by component; no component occurs twice. */
  ghost predicate Indexes(byId: map<Component, Row>, rows: seq<Row>) {
    && (forall j, k :: 0 <= j < k < |rows| ==> rows[j].component != rows[k].component)
    && (forall c :: c in byId <==> exists j :: 0 <= j < |rows| && rows[j].component == c)
    && (forall j :: 0 <= j < |rows| ==> byId[rows[j].component] == rows[j])
  }

  lemma {:induction false} IndexGrows(byId: map<Component, Row>, rows: seq<Row>, row: Row)
    requires Indexes(byId, rows)
    ensures row.component !in byId ==> Indexes(byId[row.component := row], rows + [row])
    ensures row.component in byId ==> exists j :: 0 <= j < |rows| && rows[j].component == row.component
  {
    var (byId', rows') := (byId[row.component := row], rows + [row]);
    assert rows'[|rows|] == row;
    forall c | c in byId && row.component !in byId ensures exists j :: 0 <= j < |rows'| && rows'[j].component == c {
      var j :| 0 <= j < |rows| && rows[j].component == c;
      assert rows'[j].component == c;
    }
  }

  ghost function Filed(byId: map<Component, Row>): Component -> int {
    (c: Component) => if c in byId then byId[c].weightedScore else 0
  }

  /** The published weighted scores re-add to the composite score, whatever order the rows come in. */
  method ComputeCompositeScore(rows: seq<Row>) returns (r: Option<int>)
    ensures r.Some? <==> EachOnce(rows)
    ensures forall f: Component -> int :: r.Some? && (forall row <- rows :: f(row.component) == row.weightedScore) ==> r.value == Total(f)
  {
    var byId: map<Component, Row> := map[];
    var i := 0;
    while i < |rows|
      invariant 0 <= i <= |rows| && Indexes(byId, rows[..i])
    {
      IndexGrows(byId, rows[..i], rows[i]);
      if rows[i].component in byId {
        assert exists j :: 0 <= j < i && rows[..i][j].component == rows[i].component;
        return None;
      }
      byId := byId[rows[i].component := rows[i]];
      i := i + 1;
      assert rows[..i] == rows[..i - 1] + [rows[i - 1]];
    }
    assert rows[..i] == rows;
    var k := 0;
    while k < |COMPONENTS|
      invariant 0 <= k <= |COMPONENTS| && forall c <- COMPONENTS[..k] :: c in byId
    {
      if COMPONENTS[k] !in byId {
        assert COMPONENTS[k] in COMPONENTS;
        return None;
      }
      k := k + 1;
    }
    assert COMPONENTS[..k] == COMPONENTS;
    hide Total, Indexes;
    var total := AddUp(byId, COMPONENTS);
    FiledTotal(rows, byId);
    return Some(total);
  }

  /** In the order of the policy, not of the rows. */
  method AddUp(byId: map<Component, Row>, order: seq<Component>) returns (total: int)
    requires forall c <- order :: c in byId
    ensures total == SumOver(order, Filed(byId))
  {
    total := 0;
    var k := 0;
    while k < |order|
      invariant 0 <= k <= |order| && total == SumOver(order[..k], Filed(byId))
    {
      assert order[..k + 1][..k] == order[..k] && order[k] in order;
      total := total + byId[order[k]].weightedScore;
      k := k + 1;
    }
    assert order[..k] == order;
  }

  lemma {:induction false} FiledTotal(rows: seq<Row>, byId: map<Component, Row>)
    requires Indexes(byId, rows) && forall c <- COMPONENTS :: c in byId
    ensures EachOnce(rows)
    ensures forall f: Component -> int :: (forall row <- rows :: f(row.component) == row.weightedScore) ==>
              Total(f) == SumOver(COMPONENTS, Filed(byId))
  {
    SumIsTotal(Filed(byId));
    forall f: Component -> int | forall row <- rows :: f(row.component) == row.weightedScore ensures Total(f) == Total(Filed(byId)) {
      SameTotal(rows, f, Filed(byId));
    }
  }

  lemma {:induction false} SameTotal(rows: seq<Row>, f: Component -> int, g: Component -> int)
    requires EachOnce(rows)
    requires forall row <- rows :: f(row.component) == row.weightedScore
    requires forall i :: 0 <= i < |rows| ==> g(rows[i].component) == rows[i].weightedScore
    ensures Total(f) == Total(g)
  {
    forall k | 0 <= k < |COMPONENTS| ensures f(COMPONENTS[k]) == g(COMPONENTS[k]) {
      assert COMPONENTS[k] in COMPONENTS;
      var i :| 0 <= i < |rows| && rows[i].component == COMPONENTS[k];
      assert rows[i] in rows;
    }
    assert f(COMPONENTS[0]) == g(COMPONENTS[0]) && f(COMPONENTS[1]) == g(COMPONENTS[1]) && f(COMPONENTS[2]) == g(COMPONENTS[2])
           && f(COMPONENTS[3]) == g(COMPONENTS[3]) && f(COMPONENTS[4]) == g(COMPONENTS[4]) && f(COMPONENTS[5]) == g(COMPONENTS[5])
           && f(COMPONENTS[6]) == g(COMPONENTS[6]);
  }

  // ---------------------------------------------------------------- ordering

  /** No neighbours stand the wrong way round. */
  ghost predicate NoInversion<T>(xs: seq<T>, less: (T, T) -> bool) {
    forall i :: 0 < i < |xs| ==> !less(xs[i], xs[i - 1])
  }

  lemma {:induction false} InsertWithoutInversion<T(!new)>(x: T, xs: seq<T>, less: (T, T) -> bool)
    requires Strict(less) && NoInversion(xs, less)
    ensures NoInversion(Insert(x, xs, less), less)
  {
    if xs == [] || less(x, xs[0]) {
      assert xs != [] ==> !less(xs[0], x);
    } else {
      InsertWithoutInversion(x, xs[1..], less);
      var rest := Insert(x, xs[1..], less);
      assert rest[0] == x || rest[0] == xs[1];
    }
  }

  lemma {:induction false} SortWithoutInversion<T(!new)>(xs: seq<T>, less: (T, T) -> bool)
    requires Strict(less)
    ensures NoInversion(Sort(xs, less), less)
  {
    if xs != [] {
      SortWithoutInversion(xs[..|xs| - 1], less);
      InsertWithoutInversion(xs[|xs| - 1], Sort(xs[..|xs| - 1], less), less);
    }
  }

  lemma {:induction false} NeighboursAscend<T(!new)>(xs: seq<T>, less: (T, T) -> bool, i: nat, j: nat)
    requires Strict(less) && (forall k :: 0 < k < |xs| ==> less(xs[k - 1], xs[k])) && i < j < |xs|
    ensures less(xs[i], xs[j])
    decreases j
  {
    assert less(xs[j - 1], xs[j]);
    if i < j - 1 {
      NeighboursAscend(xs, less, i, j - 1);
    }
  }

  lemma {:induction false} RepeatedCannotAscend<T(!new)>(xs: seq<T>, ys: seq<T>, less: (T, T) -> bool, i: nat, j: nat)
    requires Strict(less) && multiset(xs) == multiset(ys) && i < j < |xs| && xs[i] == xs[j]
    ensures !Ascending(ys, less)
  {
    RepeatedMeansTwice(xs, i, j);
    var k, l := TwiceMeansRepeated(ys, xs[i]);
    assert !less(ys[k], ys[l]);
  }

  lemma {:induction false} AscendingDecides<T(!new)>(xs: seq<T>, less: (T, T) -> bool)
    requires Strict(less) && Ascending(Sort(xs, less), less)
    ensures Decided(xs, less)
  {
    var ys := Sort(xs, less);
    SortContents(xs, less);
    forall i, j | 0 <= i < j < |xs| ensures less(xs[i], xs[j]) || less(xs[j], xs[i]) {
      if xs[i] == xs[j] {
        RepeatedCannotAscend(xs, ys, less, i, j);
      } else {
        assert xs[i] in ys && xs[j] in ys;
        var k :| 0 <= k < |ys| && ys[k] == xs[i];
        var l :| 0 <= l < |ys| && ys[l] == xs[j];
      }
    }
  }

  /** The ordering fails exactly when the comparator leaves two of the candidates undecided. */
  method OrderRankingCandidates(candidates: seq<Scored>) returns (r: Option<seq<Scored>>)
    ensures r.Some? <==> Decided(candidates, Before)
    ensures r.Some? ==> r.value == Sort(candidates, Before) && Ascending(r.value, Before)
  {
    var ordered := Sort(candidates, Before);
    BeforeIsStrict();
    SortWithoutInversion(candidates, Before);
    hide Compare, LexLess;
    var index := 1;
    while index < |ordered|
      invariant 1 <= index && forall k :: 0 < k < index && k < |ordered| ==> Before(ordered[k - 1], ordered[k])
    {
      ComparatorIsTotal(ordered[index - 1], ordered[index]);
      assert !Before(ordered[index], ordered[index - 1]);
      if Compare(ordered[index - 1], ordered[index]) == 0 {
        Undecided(candidates, index);
        return None;
      }
      index := index + 1;
    }
    forall i, j | 0 <= i < j < |ordered| ensures Before(ordered[i], ordered[j]) {
      NeighboursAscend(ordered, Before, i, j);
    }
    AscendingDecides(candidates, Before);
    return Some(ordered);
  }

  lemma {:induction false} Undecided(candidates: seq<Scored>, k: nat)
    requires Strict(Before) && 0 < k < |Sort(candidates, Before)|
    requires !Before(Sort(candidates, Before)[k - 1], Sort(candidates, Before)[k])
    ensures !Decided(candidates, Before)
  {
    hide Before;
    if Decided(candidates, Before) {
      SortAscends(candidates, Before);
    }
  }

  // -------------------------------------------------------------- tie groups

  ghost function Tied(ordered: seq<Scored>, composite: int, s: nat, e: nat): set<int>
    requires s <= e <= |ordered|
  {
    set j | s <= j < e && ordered[j].composite == composite
  }

  lemma {:induction false} AllTied(ordered: seq<Scored>, composite: int, s: nat, e: nat)
    requires s <= e <= |ordered| && forall m :: s <= m < e ==> ordered[m].composite == composite
    ensures |Tied(ordered, composite, s, e)| == e - s
  {
    if s < e {
      AllTied(ordered, composite, s, e - 1);
      assert ordered[e - 1].composite == composite;
      assert Tied(ordered, composite, s, e) == Tied(ordered, composite, s, e - 1) + {e - 1};
    }
  }

  ghost predicate Descending(ordered: seq<Scored>) {
    forall i, j :: 0 <= i < j < |ordered| ==> ordered[i].composite >= ordered[j].composite && ordered[i].id != ordered[j].id
  }

  /** From `s` up to `e`, and no further, the composite scores are equal. */
  ghost predicate Group(ordered: seq<Scored>, s: nat, e: nat) {
    && s < e <= |ordered| && (forall m :: s <= m < e ==> ordered[m].composite == ordered[s].composite) && Leads(ordered, s)
    && (e < |ordered| ==> ordered[e].composite != ordered[s].composite)
  }

  lemma {:induction false} GroupSize(ordered: seq<Scored>, s: nat, e: nat, m: nat)
    requires Descending(ordered) && Group(ordered, s, e) && s <= m < e
    ensures TieSize(ordered, ordered[m].composite) == e - s && (Leads(ordered, m) <==> m == s)
  {
    var composite := ordered[s].composite;
    AllTied(ordered, composite, s, e);
    assert (set j | 0 <= j < |ordered| && ordered[j].composite == composite) == Tied(ordered, composite, s, e);
  }

  ghost predicate Attributed(ordered: seq<Scored>, k: nat, sizes: map<string, int>, leads: map<string, bool>)
    requires k < |ordered|
  {
    && ordered[k].id in sizes && sizes[ordered[k].id] == TieSize(ordered, ordered[k].composite)
    && ordered[k].id in leads && leads[ordered[k].id] == Leads(ordered, k)
  }

  /** The scan that attributes every candidate to its group of equal composite scores. */
  method TieGroups(ordered: seq<Scored>) returns (sizes: map<string, int>, leads: map<string, bool>)
    requires Descending(ordered)
    ensures forall k :: 0 <= k < |ordered| ==> Attributed(ordered, k, sizes, leads)
  {
    sizes, leads := map[], map[];
    var groupStart, index := 0, 0;
    while index <= |ordered|
      invariant 0 <= groupStart <= |ordered| && groupStart <= index <= |ordered| + 1
      invariant index == |ordered| + 1 ==> groupStart == |ordered|
      invariant groupStart < |ordered| ==> Leads(ordered, groupStart)
      invariant forall m :: groupStart <= m < index && m < |ordered| ==> ordered[m].composite == ordered[groupStart].composite
      invariant groupStart == index ==> index == 0 || index == |ordered|
      invariant forall k :: 0 <= k < groupStart ==> Attributed(ordered, k, sizes, leads)
    {
      if index < |ordered| && ordered[groupStart].composite == ordered[index].composite {
        index := index + 1;
      } else {
        sizes, leads := CloseGroup(ordered, groupStart, index, sizes, leads);
        groupStart, index := index, index + 1;
      }
    }
  }

  method CloseGroup(ordered: seq<Scored>, groupStart: nat, index: nat, sizes0: map<string, int>, leads0: map<string, bool>)
    returns (sizes: map<string, int>, leads: map<string, bool>)
    requires Descending(ordered) && groupStart <= index <= |ordered| && (groupStart < index ==> Group(ordered, groupStart, index))
    requires forall k :: 0 <= k < groupStart ==> Attributed(ordered, k, sizes0, leads0)
    ensures forall k :: 0 <= k < index ==> Attributed(ordered, k, sizes, leads)
  {
    hide TieSize, Leads;
    sizes, leads := sizes0, leads0;
    var member := groupStart;
    while member < index
      invariant groupStart <= member <= index
      invariant forall k :: 0 <= k < member ==> Attributed(ordered, k, sizes, leads)
    {
      GroupSize(ordered, groupStart, index, member);
      ghost var sizes', leads' := sizes, leads;
      sizes := sizes[ordered[member].id := index - groupStart];
      leads := leads[ordered[member].id := member == groupStart];
      forall k | 0 <= k < member ensures Attributed(ordered, k, sizes, leads) {
        assert Attributed(ordered, k, sizes', leads');
      }
      member := member + 1;
    }
  }

  // ---------------------------------------------------------------- one pair

  method PartitionPair(es: seq<Evidence>) returns (rankable: seq<Candidate>, insufficient: seq<Evidence>)
    ensures rankable == Rankable(es) && insufficient == Insufficient(es)
  {
    rankable, insufficient := [], [];
    var i := 0;
    hide Complete, ValuesOf;
    while i < |es|
      invariant 0 <= i <= |es| && rankable == Rankable(es[..i]) && insufficient == Insufficient(es[..i])
    {
      assert es[..i + 1][..i] == es[..i];
      if Complete(es[i].metrics) {
        rankable := rankable + [Candidate(es[i].id, ValuesOf(es[i].metrics))];
      } else {
        insufficient := insufficient + [es[i]];
      }
      i := i + 1;
    }
    assert es[..i] == es;
  }

  function Inputs(cs: seq<Candidate>, c: Component): seq<(string, int)> {
    seq(|cs|, i requires 0 <= i < |cs| => (cs[i].id, cs[i].values.Of(c)))
  }

  lemma {:induction false} InputsAre(cs: seq<Candidate>, c: Component)
    ensures UniqueKeys(Inputs(cs, c)) <==> UniqueCandidates(cs)
    ensures Elements(ValuesIn(Inputs(cs, c))) == Column(cs, c)
  {
    var values := ValuesIn(Inputs(cs, c));
    if UniqueKeys(Inputs(cs, c)) {
      forall i, j | 0 <= i < j < |cs| ensures cs[i].id != cs[j].id {
        assert Inputs(cs, c)[i].0 != Inputs(cs, c)[j].0;
      }
    }
    forall v ensures v in Elements(values) <==> v in Column(cs, c) {
      if v in Column(cs, c) {
        var x :| x in cs && x.values.Of(c) == v;
        var i :| 0 <= i < |cs| && cs[i] == x;
        assert values[i] == v;
      }
    }
  }

  type Table = map<Component, map<string, Normalized>>

  ghost predicate Tabulated(t: Table, cs: seq<Candidate>, c: Component) {
    c in t && Normalizes(t[c], Inputs(cs, c), Column(cs, c), c)
  }

  ghost predicate Tabulates(t: Table, cs: seq<Candidate>) {
    forall c <- COMPONENTS :: Tabulated(t, cs, c)
  }

  method NormalizeAll(cs: seq<Candidate>) returns (r: Option<Table>)
    ensures r.Some? <==> UniqueCandidates(cs)
    ensures r.Some? && cs != [] ==> Tabulates(r.value, cs)
  {
    var t: Table := map[];
    if cs == [] {
      return Some(t);
    }
    var k := 0;
    while k < |COMPONENTS|
      invariant 0 <= k <= |COMPONENTS| && (k > 0 ==> UniqueCandidates(cs))
      invariant forall c <- COMPONENTS[..k] :: Tabulated(t, cs, c)
    {
      InputsAre(cs, COMPONENTS[k]);
      hide Column, Elements, UniqueKeys, UniqueCandidates, Normalizes;
      var column := NormalizeComponent(COMPONENTS[k], Inputs(cs, COMPONENTS[k]));
      if column.None? {
        return None;
      }
      t := t[COMPONENTS[k] := column.value];
      k := k + 1;
      assert COMPONENTS[..k] == COMPONENTS[..k - 1] + [COMPONENTS[k - 1]];
    }
    assert COMPONENTS[..k] == COMPONENTS;
    return Some(t);
  }

  lemma {:induction false} LookedUp(t: Table, cs: seq<Candidate>, i: nat, c: Component)
    requires Tabulates(t, cs) && i < |cs| && c in COMPONENTS
    ensures c in t && cs[i].id in t[c] && BuildComponentScore(c, cs[i].values.Of(c), t[c][cs[i].id]) == RowOf(cs, cs[i].values, c)
  {
    assert Tabulated(t, cs, c);
    assert Inputs(cs, c)[i] == (cs[i].id, cs[i].values.Of(c));
    hide NormalizedOf, HalfUp;
  }

  lemma {:induction false} RowsAreOnce(cs: seq<Candidate>, values: Metrics<int>)
    ensures EachOnce(RowsOf(cs, values)) && forall row <- RowsOf(cs, values) :: Weighted(cs, values)(row.component) == row.weightedScore
  {
    var rows := RowsOf(cs, values);
    hide NormalizedOf, HalfUp;
    forall c | c in COMPONENTS ensures exists i :: 0 <= i < |rows| && rows[i].component == c {
      var i :| 0 <= i < |COMPONENTS| && COMPONENTS[i] == c;
      assert rows[i].component == c;
    }
    forall row | row in rows ensures Weighted(cs, values)(row.component) == row.weightedScore {
      var i :| 0 <= i < |rows| && rows[i] == row;
      assert row == RowOf(cs, values, COMPONENTS[i]);
    }
  }

  method ScoreCandidate(cs: seq<Candidate>, t: Table, i: nat) returns (rows: seq<Row>, composite: int)
    requires Tabulates(t, cs) && i < |cs|
    ensures rows == RowsOf(cs, cs[i].values) && composite == Composite(cs, cs[i].values)
  {
    hide Tabulates, RowOf, BuildComponentScore, Total;
    var x := cs[i];
    rows := [];
    var k := 0;
    while k < |COMPONENTS|
      invariant 0 <= k <= |COMPONENTS| && rows == RowsOf(cs, x.values)[..k]
    {
      var c := COMPONENTS[k];
      assert c in COMPONENTS;
      LookedUp(t, cs, i, c);
      rows := rows + [BuildComponentScore(c, x.values.Of(c), t[c][x.id])];
      k := k + 1;
    }
    composite := ScoreRows(rows, cs, x.values);
  }

  method ScoreRows(rows: seq<Row>, ghost cs: seq<Candidate>, ghost values: Metrics<int>) returns (composite: int)
    requires rows == RowsOf(cs, values)
    ensures composite == Composite(cs, values)
  {
    RowsAreOnce(cs, values);
    hide RowsOf, Weighted, Total, EachOnce;
    var total := ComputeCompositeScore(rows);
    composite := total.value;
  }

  /** One pair's scores, in the order of the candidates. */
  method ScoreAll(cs: seq<Candidate>, t: Table) returns (scored: seq<Scored>, rows: map<string, seq<Row>>)
    requires UniqueCandidates(cs) && (cs != [] ==> Tabulates(t, cs))
    ensures scored == ScoredAll(cs)
    ensures forall i :: 0 <= i < |cs| ==> cs[i].id in rows && rows[cs[i].id] == RowsOf(cs, cs[i].values)
  {
    hide Tabulates, Composite, RowsOf;
    scored, rows := [], map[];
    var i := 0;
    while i < |cs|
      invariant 0 <= i <= |cs| && scored == ScoredAll(cs)[..i]
      invariant forall j :: 0 <= j < i ==> cs[j].id in rows && rows[cs[j].id] == RowsOf(cs, cs[j].values)
    {
      var r, composite := ScoreCandidate(cs, t, i);
      scored := scored + [Scored(cs[i].id, composite, cs[i].values)];
      rows := rows[cs[i].id := r];
      i := i + 1;
    }
  }

  lemma {:induction false} OrderingDescends(cs: seq<Candidate>)
    requires UniqueCandidates(cs)
    ensures Descending(Ordering(cs))
  {
    var ordered := Ordering(cs);
    OrderingAscends(cs);
    hide Ordering, Compare, LexLess;
    forall i, j | 0 <= i < j < |ordered| ensures ordered[i].composite >= ordered[j].composite && ordered[i].id != ordered[j].id {
      ComparatorIsTotal(ordered[i], ordered[j]);
      IdsDiffer(cs, i, j);
    }
  }

  lemma {:induction false} Origin(cs: seq<Candidate>, k: nat) returns (i: nat)
    requires k < |Ordering(cs)|
    ensures i < |cs| && ScoredAll(cs)[i] == Ordering(cs)[k]
  {
    hide Composite, Before;
    SortContents(ScoredAll(cs), Before);
    assert Ordering(cs)[k] in ScoredAll(cs);
    i :| 0 <= i < |cs| && ScoredAll(cs)[i] == Ordering(cs)[k];
  }

  lemma {:induction false} IdsDiffer(cs: seq<Candidate>, i: nat, j: nat)
    requires UniqueCandidates(cs) && i < j < |Ordering(cs)|
    ensures Ordering(cs)[i].id != Ordering(cs)[j].id
  {
    var k := Origin(cs, i);
    var l := Origin(cs, j);
    OrderingAscends(cs);
    BeforeIsStrict();
    hide Composite, Before, Ordering;
    assert Before(Ordering(cs)[i], Ordering(cs)[j]);
    assert k != l;
  }

  lemma {:induction false} RowsFound(cs: seq<Candidate>, rows: map<string, seq<Row>>, k: nat)
    requires UniqueCandidates(cs) && k < |Ordering(cs)|
    requires forall i :: 0 <= i < |cs| ==> cs[i].id in rows && rows[cs[i].id] == RowsOf(cs, cs[i].values)
    ensures Ordering(cs)[k].id in rows && rows[Ordering(cs)[k].id] == RowsOf(cs, Ordering(cs)[k].values)
  {
    hide Composite, RowsOf, Ordering;
    var i := Origin(cs, k);
  }

  /** One pair-local leaderboard. It fails exactly when two rankable candidates share an id. */
  method BuildPairRankingRun(pair: string, planId: string, es: seq<Evidence>) returns (r: Option<Run>)
    ensures r.Some? <==> UniqueCandidates(Rankable(es))
    ensures r.Some? ==> r.value == RunOf(pair, planId, es)
  {
    var cs, insufficient := PartitionPair(es);
    var t := NormalizeAll(cs);
    if t.None? {
      return None;
    }
    var scored, rows := ScoreAll(cs, t.value);
    ScoredAreDecided(cs);
    var ordered := OrderRankingCandidates(scored);
    var ranked := AssembleRanked(cs, ordered.value, rows);
    var sorted := Sort(insufficient, IdLess);
    var rest := seq(|sorted|, k requires 0 <= k < |sorted| => InsufficientResult(sorted[k]));
    return Some(Run(pair, planId, |es|, |ranked|, ranked + rest));
  }

  method AssembleRanked(cs: seq<Candidate>, ordered: seq<Scored>, rows: map<string, seq<Row>>) returns (results: seq<Result>)
    requires UniqueCandidates(cs) && ordered == Ordering(cs)
    requires forall i :: 0 <= i < |cs| ==> cs[i].id in rows && rows[cs[i].id] == RowsOf(cs, cs[i].values)
    ensures results == RankedResults(cs) && |results| == |cs|
  {
    hide Ordering, ResolveTieBreakLevel, RowsOf, RankedAt, Attributed, Descending, UniqueCandidates, Before;
    OrderingDescends(cs);
    OrderingAscends(cs);
    var sizes, leads := TieGroups(ordered);
    results := [];
    var k := 0;
    while k < |ordered|
      invariant 0 <= k <= |ordered| && results == RankedResults(cs)[..k]
    {
      ResultAt(cs, rows, sizes, leads, k);
      var id := ordered[k].id;
      var level := if leads[id] || k == 0 then None else ResolveTieBreakLevel(ordered[k - 1], ordered[k]);
      results := results + [Ranked(id, rows[id], ordered[k].composite, k + 1, |ordered|, sizes[id], level)];
      k := k + 1;
    }
  }

  lemma {:induction false} ResultAt(cs: seq<Candidate>, rows: map<string, seq<Row>>, sizes: map<string, int>, leads: map<string, bool>, k: nat)
    requires UniqueCandidates(cs) && k < |Ordering(cs)| && Attributed(Ordering(cs), k, sizes, leads)
    requires forall i :: 0 <= i < |cs| ==> cs[i].id in rows && rows[cs[i].id] == RowsOf(cs, cs[i].values)
    ensures var ordered := Ordering(cs);
            var id := ordered[k].id;
            && id in rows && id in leads && id in sizes
            && RankedAt(cs, ordered, k) ==
               Ranked(id, rows[id], ordered[k].composite, k + 1, |ordered|, sizes[id],
                      if leads[id] || k == 0 then None else ResolveTieBreakLevel(ordered[k - 1], ordered[k]))
  {
    RowsFound(cs, rows, k);
    hide Ordering, ResolveTieBreakLevel, RowsOf, TieSize;
  }

  /** Within a group of equal composite scores, every candidate but the first is placed by a tie-break level, the first
      that separates it from its predecessor. */
  lemma {:induction false} TieBreakIsNamed(cs: seq<Candidate>, k: nat)
    requires UniqueCandidates(cs) && k < |Ordering(cs)|
    ensures Leads(Ordering(cs), k) <==> RankedAt(cs, Ordering(cs), k).tieBreakLevel.None?
    ensures !Leads(Ordering(cs), k) ==>
              CompareAtLevel(Ordering(cs)[k - 1], Ordering(cs)[k], RankedAt(cs, Ordering(cs), k).tieBreakLevel.value) < 0
  {
    var ordered := Ordering(cs);
    OrderingAscends(cs);
    hide Ordering, RowsOf, TieSize;
    if !Leads(ordered, k) {
      assert Before(ordered[k - 1], ordered[k]);
      FirstLevelIs(ordered[k - 1], ordered[k]);
    }
  }

  // --------------------------------------------------------------- all pairs

  /** Evidence grouped by pair, the pairs in the order of their first appearance. */
  ghost predicate Grouped(es: seq<Evidence>, names: seq<string>, byPair: map<string, seq<Evidence>>) {
    && names == Distinct(PairNames(es))
    && (forall pair :: pair in byPair <==> pair in names)
    && (forall pair <- byPair :: byPair[pair] == Bucket(es, pair))
  }

  lemma {:induction false} BucketOfNone(es: seq<Evidence>, pair: string)
    ensures Bucket(es, pair) == [] <==> pair !in Distinct(PairNames(es))
  {
    DistinctContents(PairNames(es));
    PairNamesContents(es, pair);
    if Bucket(es, pair) != [] {
      BucketMember(es, pair, 0);
    } else {
      forall e | e in es ensures e.pair != pair {
        BucketContents(es, pair, e);
        assert e in multiset(es);
      }
    }
  }

  lemma {:induction false} BucketMember(es: seq<Evidence>, pair: string, k: nat)
    requires k < |Bucket(es, pair)|
    ensures Bucket(es, pair)[k] in es && Bucket(es, pair)[k].pair == pair
  {
    var e := Bucket(es, pair)[k];
    assert e in multiset(Bucket(es, pair));
    BucketContents(es, pair, e);
    assert e in multiset(es);
  }

  lemma {:induction false} GroupingGrows(es: seq<Evidence>, e: Evidence, names: seq<string>, byPair: map<string, seq<Evidence>>)
    requires Grouped(es, names, byPair)
    ensures Grouped(es + [e], if e.pair in byPair then names else names + [e.pair],
                    byPair[e.pair := (if e.pair in byPair then byPair[e.pair] else []) + [e]])
  {
    BucketOfNone(es, e.pair);
    assert (es + [e])[..|es|] == es;
    assert PairNames(es + [e]) == PairNames(es) + [e.pair];
    assert (PairNames(es) + [e.pair])[..|es|] == PairNames(es);
  }

  predicate OnePlan(bucket: seq<Evidence>) {
    forall e <- bucket :: e.planId == bucket[0].planId
  }

  lemma {:induction false} PlansAgree(es: seq<Evidence>)
    ensures OnePlanEach(es) <==> forall pair <- Pairs(es) :: OnePlan(Bucket(es, pair))
  {
    hide LexLess;
    SortContents(Distinct(PairNames(es)), LexLess);
    DistinctContents(PairNames(es));
    hide Sort, Distinct, OnePlan, Bucket;
    if OnePlanEach(es) {
      forall pair | pair in Pairs(es) ensures OnePlan(Bucket(es, pair)) {
        BucketAgrees(es, pair);
      }
    }
    if forall pair <- Pairs(es) :: OnePlan(Bucket(es, pair)) {
      forall x, y | x in es && y in es && x.pair == y.pair ensures x.planId == y.planId {
        PairNamesContents(es, x.pair);
        Agreed(es, x, y);
      }
    }
  }

  lemma {:induction false} Agreed(es: seq<Evidence>, x: Evidence, y: Evidence)
    requires OnePlan(Bucket(es, x.pair)) && x in es && y in es && x.pair == y.pair
    ensures x.planId == y.planId
  {
    BucketContents(es, x.pair, x);
    BucketContents(es, x.pair, y);
    hide Bucket;
    assert x in multiset(es) && y in multiset(es);
    assert x in multiset(Bucket(es, x.pair)) && y in multiset(Bucket(es, x.pair));
  }

  lemma {:induction false} BucketAgrees(es: seq<Evidence>, pair: string)
    requires OnePlanEach(es)
    ensures OnePlan(Bucket(es, pair))
  {
    var bucket := Bucket(es, pair);
    hide Bucket;
    forall e | e in bucket ensures e.planId == bucket[0].planId {
      var k :| 0 <= k < |bucket| && bucket[k] == e;
      BucketMember(es, pair, k);
      BucketMember(es, pair, 0);
    }
  }

  lemma {:induction false} BucketIsUnique(es: seq<Evidence>, pair: string)
    requires UniqueIds(es)
    ensures UniqueCandidates(Rankable(Bucket(es, pair)))
  {
    forall e ensures multiset(Bucket(es, pair))[e] <= multiset(es)[e] {
      BucketContents(es, pair, e);
    }
    SelectionIsUnique(Bucket(es, pair), es);
    RankableAreUnique(Bucket(es, pair));
  }

  method GroupByPair(es: seq<Evidence>) returns (names: seq<string>, byPair: map<string, seq<Evidence>>, unique: bool)
    ensures unique <==> UniqueIds(es)
    ensures unique ==> Grouped(es, names, byPair)
  {
    names, byPair, unique := [], map[], true;
    var seen: set<string> := {};
    var i := 0;
    hide Grouped;
    assert Grouped(es[..0], names, byPair) by {
      EmptyGrouped();
    }
    while i < |es|
      invariant 0 <= i <= |es| && UniqueIds(es[..i]) && Grouped(es[..i], names, byPair)
      invariant forall id :: id in seen <==> exists j :: 0 <= j < i && es[j].id == id
    {
      var e := es[i];
      if e.id in seen {
        assert exists j :: 0 <= j < i && es[j].id == es[i].id;
        unique := false;
        return;
      }
      seen := seen + {e.id};
      GroupingGrows(es[..i], e, names, byPair);
      if e.pair in byPair {
        byPair := byPair[e.pair := byPair[e.pair] + [e]];
      } else {
        names, byPair := names + [e.pair], byPair[e.pair := [] + [e]];
      }
      i := i + 1;
      assert es[..i] == es[..i - 1] + [e];
    }
    assert es[..i] == es;
  }

  lemma {:induction false} EmptyGrouped()
    ensures Grouped([], [], map[])
  {
    assert PairNames([]) == [];
  }

  method RankPair(ghost es: seq<Evidence>, pair: string, bucket: seq<Evidence>) returns (run: Run)
    requires UniqueIds(es) && bucket == Bucket(es, pair) && bucket != []
    ensures run == PairRun(es, pair)
  {
    BucketIsUnique(es, pair);
    hide RunOf, Rankable, Bucket;
    var r := BuildPairRankingRun(pair, bucket[0].planId, bucket);
    run := r.value;
  }

  method RankPairs(ghost es: seq<Evidence>, pairs: seq<string>, byPair: map<string, seq<Evidence>>) returns (runs: seq<Run>, agreed: bool)
    requires UniqueIds(es) && forall pair <- pairs :: pair in byPair && byPair[pair] == Bucket(es, pair) && Bucket(es, pair) != []
    ensures agreed <==> forall pair <- pairs :: OnePlan(Bucket(es, pair))
    ensures agreed ==> runs == seq(|pairs|, k requires 0 <= k < |pairs| => PairRun(es, pairs[k]))
  {
    hide PairRun, OnePlan, UniqueIds, Bucket;
    runs, agreed := [], true;
    var k := 0;
    while k < |pairs|
      invariant 0 <= k <= |pairs| && |runs| == k
      invariant forall pair <- pairs[..k] :: OnePlan(Bucket(es, pair))
      invariant forall j :: 0 <= j < k ==> runs[j] == PairRun(es, pairs[j])
    {
      assert pairs[k] in pairs;
      if !OnePlan(byPair[pairs[k]]) {
        agreed := false;
        return;
      }
      var run := RankPair(es, pairs[k], byPair[pairs[k]]);
      runs := runs + [run];
      k := k + 1;
      assert pairs[..k] == pairs[..k - 1] + [pairs[k - 1]];
    }
    assert pairs[..k] == pairs;
  }

  /** Groups the evidence by pair and ranks each pair by itself: a pair's run is computed from that pair's evidence alone. */
  method ComposeRankingRunSet(es: seq<Evidence>) returns (r: Outcome)
    ensures r == RunSetOf(es)
  {
    var names, byPair, unique := GroupByPair(es);
    if !unique {
      return DUPLICATE_RANKING_CANDIDATE;
    }
    var pairs := Sort(names, LexLess);
    SortContents(names, LexLess);
    PlansAgree(es);
    hide PairRun, OnePlanEach, OnePlan, UniqueIds, LexLess, Bucket;
    forall pair | pair in pairs ensures pair in byPair && byPair[pair] == Bucket(es, pair) && Bucket(es, pair) != [] {
      BucketOfNone(es, pair);
    }
    var runs, agreed := RankPairs(es, pairs, byPair);
    if !agreed {
      return RANKING_EVIDENCE_CONFLICT;
    }
    return Composed(runs);
  }
}
