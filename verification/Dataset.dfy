/** Model of the replay loop in src/backtest/dataset.ts: a historical range is read page by
    page and must turn out to be every minute exactly once, in order. Hashing and the source's
    identity checks are left out; the source is any function from a range to rows. */
module Dataset {
  import opened Common

  datatype Row = Row(pair: string, openTimeMs: int, payload: seq<real>)

  datatype ReplayError = DATASET_ORDER_VIOLATION | DATASET_GAP | INVALID_ROW

  datatype Result<+T> = Ok(value: T) | Err(error: ReplayError)

  /** Rows of the inclusive range, as the data source answers. */
  type Source = (int, int) -> seq<Row>

  /** The minutes from `fromMs` on, each exactly once. */
  predicate EveryMinute(rows: seq<Row>, fromMs: int) {
    forall k :: 0 <= k < |rows| ==> rows[k].openTimeMs == fromMs + k * MINUTE_MS
  }

  /** Every minute from `fromMs` up to, but not including, `toMs`. */
  predicate Full(rows: seq<Row>, fromMs: int, toMs: int) {
    EveryMinute(rows, fromMs) && fromMs + |rows| * MINUTE_MS == toMs
  }

  function FirstWrong(rows: seq<Row>, pair: string, expected: int, pageStart: int, pageEnd: int): Option<ReplayError> {
    if rows == [] then None
    else if rows[0].pair != pair then Some(INVALID_ROW)
    else if rows[0].openTimeMs < expected then Some(DATASET_ORDER_VIOLATION)
    else if rows[0].openTimeMs > expected then Some(DATASET_GAP)
    else if rows[0].openTimeMs < pageStart || rows[0].openTimeMs >= pageEnd then Some(DATASET_ORDER_VIOLATION)
    else FirstWrong(rows[1..], pair, expected + MINUTE_MS, pageStart, pageEnd)
  }

  predicate Fills(rows: seq<Row>, fromMs: int, toMs: int) {
    fromMs + |rows| * MINUTE_MS == toMs
  }

  function Min(a: int, b: int): int {
    if a <= b then a else b
  }

  /** The replay, page after page. */
  function Replayed(source: Source, pair: string, fromMs: int, toMs: int, pageMs: int): Result<seq<Row>>
    requires pageMs > 0
    decreases toMs - fromMs
  {
    if fromMs >= toMs then Ok([])
    else
      var pageEnd := Min(fromMs + pageMs, toMs);
      var rows := source(fromMs, pageEnd - MINUTE_MS);
      var wrong := FirstWrong(rows, pair, fromMs, fromMs, pageEnd);
      if wrong.Some? then Err(wrong.value)
      else if !Fills(rows, fromMs, pageEnd) then Err(DATASET_GAP)
      else match Replayed(source, pair, pageEnd, toMs, pageMs)
        case Err(e) => Err(e)
        case Ok(rest) => Ok(rows + rest)
  }

  lemma {:induction false} RightRows(rows: seq<Row>, pair: string, expected: int, pageStart: int, pageEnd: int)
    requires pageStart <= expected
    ensures FirstWrong(rows, pair, expected, pageStart, pageEnd).None? <==>
              EveryMinute(rows, expected) && (forall k :: 0 <= k < |rows| ==> rows[k].pair == pair && rows[k].openTimeMs < pageEnd)
  {
    if rows != [] {
      var rest := rows[1..];
      RightRows(rest, pair, expected + MINUTE_MS, pageStart, pageEnd);
      assert rows[0].openTimeMs == expected + 0 * MINUTE_MS <==> rows[0].openTimeMs == expected;
      assert forall k :: 0 <= k < |rest| ==> rest[k] == rows[k + 1];
      assert forall k :: 1 <= k < |rows| ==> rows[k] == rest[k - 1];
      if rows[0].openTimeMs == expected {
        Shift(rows, expected);
      }
    }
  }

  lemma {:induction false} Shift(rows: seq<Row>, expected: int)
    requires rows != [] && rows[0].openTimeMs == expected
    ensures EveryMinute(rows, expected) <==> EveryMinute(rows[1..], expected + MINUTE_MS)
  {
    var rest := rows[1..];
    if EveryMinute(rest, expected + MINUTE_MS) {
      forall k | 0 <= k < |rows| ensures rows[k].openTimeMs == expected + k * MINUTE_MS {
        assert k > 0 ==> rest[k - 1].openTimeMs == expected + MINUTE_MS + (k - 1) * MINUTE_MS;
      }
    }
    if EveryMinute(rows, expected) {
      forall k | 0 <= k < |rest| ensures rest[k].openTimeMs == expected + MINUTE_MS + k * MINUTE_MS {
        assert rows[k + 1].openTimeMs == expected + (k + 1) * MINUTE_MS;
      }
    }
  }

  lemma {:induction false} Appended(a: seq<Row>, b: seq<Row>, fromMs: int)
    requires EveryMinute(a, fromMs) && EveryMinute(b, fromMs + |a| * MINUTE_MS)
    ensures EveryMinute(a + b, fromMs)
  {
    forall k | 0 <= k < |a + b| ensures (a + b)[k].openTimeMs == fromMs + k * MINUTE_MS {
      if k >= |a| {
        assert b[k - |a|].openTimeMs == fromMs + |a| * MINUTE_MS + (k - |a|) * MINUTE_MS;
      }
    }
  }

  /** Whatever the source answers and whatever the page size: a replay that succeeds yields every minute
      of the range exactly once, in order, and all of them of the requested pair. */
  lemma {:induction false} ReplayIsExact(source: Source, pair: string, fromMs: int, toMs: int, pageMs: int)
    requires pageMs > 0 && fromMs <= toMs
    ensures var r := Replayed(source, pair, fromMs, toMs, pageMs);
            r.Ok? ==> Full(r.value, fromMs, toMs)
                      && forall k :: 0 <= k < |r.value| ==> r.value[k].pair == pair
    decreases toMs - fromMs
  {
    if fromMs < toMs {
      var pageEnd := Min(fromMs + pageMs, toMs);
      var rows := source(fromMs, pageEnd - MINUTE_MS);
      RightRows(rows, pair, fromMs, fromMs, pageEnd);
      ReplayIsExact(source, pair, pageEnd, toMs, pageMs);
      if Replayed(source, pair, fromMs, toMs, pageMs).Ok? {
        Appended(rows, Replayed(source, pair, pageEnd, toMs, pageMs).value, fromMs);
      }
    }
  }

  // --------------------------------------------------- what is yielded on the way

  /** The row that is due. */
  predicate Right(row: Row, pair: string, expected: int, pageStart: int, pageEnd: int) {
    row.pair == pair && row.openTimeMs == expected && pageStart <= row.openTimeMs < pageEnd
  }

  /** The rows of a page up to its first wrong one. */
  function RightPart(rows: seq<Row>, pair: string, expected: int, pageStart: int, pageEnd: int): seq<Row> {
    if rows == [] || !Right(rows[0], pair, expected, pageStart, pageEnd) then []
    else [rows[0]] + RightPart(rows[1..], pair, expected + MINUTE_MS, pageStart, pageEnd)
  }

  /** The rows that have been yielded when the replay ends, in success or in failure. */
  function Yielded(source: Source, pair: string, fromMs: int, toMs: int, pageMs: int): seq<Row>
    requires pageMs > 0
    decreases toMs - fromMs
  {
    if fromMs >= toMs then []
    else
      var pageEnd := Min(fromMs + pageMs, toMs);
      var rows := source(fromMs, pageEnd - MINUTE_MS);
      RightPart(rows, pair, fromMs, fromMs, pageEnd) +
      (if FirstWrong(rows, pair, fromMs, fromMs, pageEnd).None? && Fills(rows, fromMs, pageEnd)
       then Yielded(source, pair, pageEnd, toMs, pageMs) else [])
  }

  lemma {:induction false} RightPartIsRight(rows: seq<Row>, pair: string, expected: int, pageStart: int, pageEnd: int)
    ensures var part := RightPart(rows, pair, expected, pageStart, pageEnd);
            && EveryMinute(part, expected) && (forall k :: 0 <= k < |part| ==> part[k].pair == pair && part[k].openTimeMs < pageEnd)
            && (FirstWrong(rows, pair, expected, pageStart, pageEnd).None? <==> part == rows)
  {
    if rows != [] {
      var rest := RightPart(rows[1..], pair, expected + MINUTE_MS, pageStart, pageEnd);
      RightPartIsRight(rows[1..], pair, expected + MINUTE_MS, pageStart, pageEnd);
      hide EveryMinute;
      if Right(rows[0], pair, expected, pageStart, pageEnd) {
        assert ([rows[0]] + rest)[1..] == rest;
        Shift([rows[0]] + rest, expected);
        assert rows == [rows[0]] + rows[1..];
      } else {
        NothingIsEveryMinute(expected);
      }
    } else {
      NothingIsEveryMinute(expected);
    }
  }

  lemma {:induction false} NothingIsEveryMinute(fromMs: int)
    ensures EveryMinute([], fromMs)
  {
  }

  /** Whatever the source answers: what has been yielded before a failure is already every minute from the start,
      in order and of the requested pair, and a success yields just the rows it returns. */
  lemma {:induction false} YieldedIsExact(source: Source, pair: string, fromMs: int, toMs: int, pageMs: int)
    requires pageMs > 0
    ensures var yielded := Yielded(source, pair, fromMs, toMs, pageMs);
            && EveryMinute(yielded, fromMs) && (forall k :: 0 <= k < |yielded| ==> yielded[k].pair == pair && yielded[k].openTimeMs < toMs)
            && (Replayed(source, pair, fromMs, toMs, pageMs).Ok? ==> Replayed(source, pair, fromMs, toMs, pageMs).value == yielded)
    decreases toMs - fromMs
  {
    if fromMs < toMs {
      var pageEnd := Min(fromMs + pageMs, toMs);
      var rows := source(fromMs, pageEnd - MINUTE_MS);
      var rest := Yielded(source, pair, pageEnd, toMs, pageMs);
      RightPartIsRight(rows, pair, fromMs, fromMs, pageEnd);
      YieldedIsExact(source, pair, pageEnd, toMs, pageMs);
      hide EveryMinute, FirstWrong, RightPart;
      if FirstWrong(rows, pair, fromMs, fromMs, pageEnd).None? && Fills(rows, fromMs, pageEnd) {
        Appended(rows, rest, fromMs);
      } else {
        var part := RightPart(rows, pair, fromMs, fromMs, pageEnd);
        assert part + [] == part;
      }
    } else {
      NothingIsEveryMinute(fromMs);
    }
  }

  // ------------------------------------------------ completeness, for every page size

  /** The rows that a table answers for an inclusive range. */
  function Between(table: seq<Row>, fromMs: int, toMs: int): seq<Row> {
    if table == [] then []
    else (if fromMs <= table[0].openTimeMs <= toMs then [table[0]] else []) + Between(table[1..], fromMs, toMs)
  }

  predicate Ascending(table: seq<Row>) {
    forall i, j :: 0 <= i < j < |table| ==> table[i].openTimeMs <= table[j].openTimeMs
  }

  /** An ordered source over a fixed table. */
  ghost predicate Serves(source: Source, table: seq<Row>) {
    Ascending(table) && forall a, b :: source(a, b) == Between(table, a, b)
  }

  lemma {:induction false} NothingBetween(table: seq<Row>, fromMs: int, toMs: int)
    requires forall i :: 0 <= i < |table| ==> table[i].openTimeMs > toMs
    ensures Between(table, fromMs, toMs) == []
  {
    if table != [] {
      NothingBetween(table[1..], fromMs, toMs);
    }
  }

  /** A whole number of minutes away. */
  predicate OnGrid(t: int, origin: int) {
    t % MINUTE_MS == origin % MINUTE_MS
  }

  ghost predicate TableOnGrid(table: seq<Row>, origin: int) {
    forall row <- table :: OnGrid(row.openTimeMs, origin)
  }

  /** An ordered range is its first part followed by the rest, if no row lies strictly between two minutes. */
  lemma {:induction false} SplitRange(table: seq<Row>, fromMs: int, midMs: int, toMs: int)
    requires Ascending(table) && fromMs <= midMs <= toMs && TableOnGrid(table, midMs)
    ensures Between(table, fromMs, toMs - MINUTE_MS) ==
            Between(table, fromMs, midMs - MINUTE_MS) + Between(table, midMs, toMs - MINUTE_MS)
  {
    if table != [] {
      var rest := table[1..];
      TailFits(table, midMs);
      hide OnGrid, Ascending, TableOnGrid, Between;
      SplitRange(rest, fromMs, midMs, toMs);
      if table[0].openTimeMs >= midMs {
        NothingBetween(rest, fromMs, midMs - MINUTE_MS);
      }
      Head(table, fromMs, toMs - MINUTE_MS);
      Head(table, fromMs, midMs - MINUTE_MS);
      Head(table, midMs, toMs - MINUTE_MS);
      Reassociate(table[0], Between(rest, fromMs, midMs - MINUTE_MS), Between(rest, midMs, toMs - MINUTE_MS));
    } else {
      assert Between(table, fromMs, toMs - MINUTE_MS) == [];
    }
  }

  lemma {:induction false} TailFits(table: seq<Row>, midMs: int)
    requires table != [] && Ascending(table) && TableOnGrid(table, midMs)
    ensures Ascending(table[1..]) && TableOnGrid(table[1..], midMs)
    ensures table[0].openTimeMs < midMs <==> table[0].openTimeMs <= midMs - MINUTE_MS
    ensures table[0].openTimeMs >= midMs ==> forall i :: 0 <= i < |table[1..]| ==> table[1..][i].openTimeMs > midMs - MINUTE_MS
  {
    OffGrid(table[0].openTimeMs, midMs);
    hide OnGrid;
  }

  lemma {:induction false} OffGrid(t: int, midMs: int)
    requires OnGrid(t, midMs)
    ensures t < midMs <==> t <= midMs - MINUTE_MS
  {
  }

  lemma {:induction false} Head(table: seq<Row>, fromMs: int, toMs: int)
    requires table != []
    ensures Between(table, fromMs, toMs) ==
            if fromMs <= table[0].openTimeMs <= toMs then [table[0]] + Between(table[1..], fromMs, toMs)
            else Between(table[1..], fromMs, toMs)
  {
  }

  lemma {:induction false} Reassociate(row: Row, low: seq<Row>, high: seq<Row>)
    ensures [row] + (low + high) == ([row] + low) + high && [] + high == high
  {
  }

  /** An ordered source on the minute grid is replayed in full, and to the same rows, for every page size,
      exactly when the table holds every minute of the range once and nothing else in it. */
  lemma {:induction false} EveryPageSizeAgrees(source: Source, table: seq<Row>, pair: string, fromMs: int, toMs: int, pageMs: int)
    requires Serves(source, table) && pageMs > 0 && OnGrid(pageMs, 0) && fromMs <= toMs && OnGrid(toMs, fromMs)
    requires TableOnGrid(table, fromMs) && forall i :: 0 <= i < |table| ==> table[i].pair == pair
    ensures var all := Between(table, fromMs, toMs - MINUTE_MS);
            var r := Replayed(source, pair, fromMs, toMs, pageMs);
            && (r.Ok? <==> Full(all, fromMs, toMs))
            && (r.Ok? ==> r.value == all)
    decreases toMs - fromMs
  {
    if fromMs == toMs {
      EmptyRange(table, fromMs);
    } else {
      var pageEnd := Min(fromMs + pageMs, toMs);
      PageOnGrid(fromMs, toMs, pageMs, table);
      hide OnGrid, TableOnGrid, Full, Fills, Ascending, Between, FirstWrong, Min, Serves;
      EveryPageSizeAgrees(source, table, pair, pageEnd, toMs, pageMs);
      PageAndRest(source, table, pair, fromMs, pageEnd, toMs);
    }
  }

  /** One page, and what it means for the whole range. */
  lemma {:induction false} PageAndRest(source: Source, table: seq<Row>, pair: string, fromMs: int, pageEnd: int, toMs: int)
    requires Serves(source, table) && fromMs < pageEnd <= toMs && OnGrid(pageEnd, fromMs) && TableOnGrid(table, pageEnd)
    requires forall i :: 0 <= i < |table| ==> table[i].pair == pair
    ensures var rows := source(fromMs, pageEnd - MINUTE_MS);
            var rest := Between(table, pageEnd, toMs - MINUTE_MS);
            && Between(table, fromMs, toMs - MINUTE_MS) == rows + rest
            && (Full(rows, fromMs, pageEnd) <==>
                  FirstWrong(rows, pair, fromMs, fromMs, pageEnd).None? && Fills(rows, fromMs, pageEnd))
            && (Full(rows + rest, fromMs, toMs) <==> Full(rows, fromMs, pageEnd) && Full(rest, pageEnd, toMs))
  {
    var rows, rest := Between(table, fromMs, pageEnd - MINUTE_MS), Between(table, pageEnd, toMs - MINUTE_MS);
    SplitRange(table, fromMs, pageEnd, toMs);
    PageAccepted(source, table, pair, fromMs, pageEnd);
    RowsFit(table, fromMs, pageEnd - MINUTE_MS, pair);
    RowsFit(table, pageEnd, toMs - MINUTE_MS, pair);
    hide Full, Fills, Between, FirstWrong, TableOnGrid, Serves;
    Halves(rows, rest, fromMs, pageEnd, toMs);
  }

  /** A page is accepted exactly if it is full. */
  lemma {:induction false} PageAccepted(source: Source, table: seq<Row>, pair: string, fromMs: int, pageEnd: int)
    requires Serves(source, table) && forall i :: 0 <= i < |table| ==> table[i].pair == pair
    ensures var rows := source(fromMs, pageEnd - MINUTE_MS);
            && rows == Between(table, fromMs, pageEnd - MINUTE_MS)
            && (Full(rows, fromMs, pageEnd) <==>
                  FirstWrong(rows, pair, fromMs, fromMs, pageEnd).None? && Fills(rows, fromMs, pageEnd))
  {
    var rows := source(fromMs, pageEnd - MINUTE_MS);
    RowsFit(table, fromMs, pageEnd - MINUTE_MS, pair);
    RightRows(rows, pair, fromMs, fromMs, pageEnd);
  }

  /** A range is complete exactly if both its halves are. */
  lemma {:induction false} Halves(rows: seq<Row>, rest: seq<Row>, fromMs: int, pageEnd: int, toMs: int)
    requires fromMs < pageEnd <= toMs && OnGrid(pageEnd, fromMs)
    requires forall k :: 0 <= k < |rows| ==> rows[k].openTimeMs <= pageEnd - MINUTE_MS
    requires forall k :: 0 <= k < |rest| ==> pageEnd <= rest[k].openTimeMs
    ensures Full(rows + rest, fromMs, toMs) <==> Full(rows, fromMs, pageEnd) && Full(rest, pageEnd, toMs)
  {
    if EveryMinute(rows + rest, fromMs) && fromMs + |rows + rest| * MINUTE_MS == toMs {
      PartsAreExact(rows, rest, fromMs, pageEnd, toMs);
      PartsLengths(rows, rest, fromMs, pageEnd, toMs);
    }
    if EveryMinute(rows, fromMs) && EveryMinute(rest, pageEnd) && fromMs + |rows| * MINUTE_MS == pageEnd {
      Appended(rows, rest, fromMs);
    }
  }

  lemma {:induction false} EmptyRange(table: seq<Row>, fromMs: int)
    ensures Between(table, fromMs, fromMs - MINUTE_MS) == []
  {
    if table != [] {
      EmptyRange(table[1..], fromMs);
    }
  }

  lemma {:induction false} PageOnGrid(fromMs: int, toMs: int, pageMs: int, table: seq<Row>)
    requires pageMs > 0 && OnGrid(pageMs, 0) && fromMs < toMs && OnGrid(toMs, fromMs) && TableOnGrid(table, fromMs)
    ensures var pageEnd := Min(fromMs + pageMs, toMs);
            fromMs < pageEnd <= toMs && OnGrid(pageEnd, fromMs) && OnGrid(toMs, pageEnd) && TableOnGrid(table, pageEnd)
  {
  }

  lemma {:induction false} BetweenFits(table: seq<Row>, fromMs: int, toMs: int)
    ensures forall row <- Between(table, fromMs, toMs) :: row in table && fromMs <= row.openTimeMs <= toMs
  {
    if table != [] {
      var rest := Between(table[1..], fromMs, toMs);
      BetweenFits(table[1..], fromMs, toMs);
      assert forall row <- rest :: row in table;
    }
  }

  lemma {:induction false} RowsFit(table: seq<Row>, fromMs: int, toMs: int, pair: string)
    requires forall i :: 0 <= i < |table| ==> table[i].pair == pair
    ensures var rows := Between(table, fromMs, toMs);
            forall k :: 0 <= k < |rows| ==> rows[k].pair == pair && fromMs <= rows[k].openTimeMs <= toMs
  {
    BetweenFits(table, fromMs, toMs);
    var rows := Between(table, fromMs, toMs);
    assert forall k :: 0 <= k < |rows| ==> rows[k] in rows;
  }

  lemma {:induction false} PartsAreExact(rows: seq<Row>, rest: seq<Row>, fromMs: int, pageEnd: int, toMs: int)
    requires EveryMinute(rows + rest, fromMs)
    ensures EveryMinute(rows, fromMs) && EveryMinute(rest, fromMs + |rows| * MINUTE_MS)
  {
    var all := rows + rest;
    forall k | 0 <= k < |rows| ensures rows[k].openTimeMs == fromMs + k * MINUTE_MS {
      assert all[k] == rows[k];
    }
    forall k | 0 <= k < |rest| ensures rest[k].openTimeMs == fromMs + |rows| * MINUTE_MS + k * MINUTE_MS {
      assert all[|rows| + k] == rest[k];
    }
  }

  /** In a full range the first part ends exactly at its page's end. */
  lemma {:induction false} PartsLengths(rows: seq<Row>, rest: seq<Row>, fromMs: int, pageEnd: int, toMs: int)
    requires EveryMinute(rows, fromMs) && EveryMinute(rest, fromMs + |rows| * MINUTE_MS)
    requires fromMs + |rows + rest| * MINUTE_MS == toMs && fromMs < pageEnd <= toMs
    requires OnGrid(pageEnd, fromMs)
    requires forall k :: 0 <= k < |rows| ==> rows[k].openTimeMs <= pageEnd - MINUTE_MS
    requires forall k :: 0 <= k < |rest| ==> pageEnd <= rest[k].openTimeMs
    ensures fromMs + |rows| * MINUTE_MS == pageEnd
  {
    if rows != [] {
      assert rows[|rows| - 1].openTimeMs == fromMs + (|rows| - 1) * MINUTE_MS;
    }
    if rest != [] {
      assert rest[0].openTimeMs == fromMs + |rows| * MINUTE_MS + 0 * MINUTE_MS;
    }
  }

  // -------------------------------------------------------------- the loops

  /** The inner loop: the rows of one page, one by one. */
  method ReplayPage(rows: seq<Row>, pair: string, pageStart: int, pageEnd: int)
    returns (yielded: seq<Row>, expected: int, failure: Option<ReplayError>)
    ensures yielded == RightPart(rows, pair, pageStart, pageStart, pageEnd)
    ensures failure == FirstWrong(rows, pair, pageStart, pageStart, pageEnd)
    ensures failure.None? ==> yielded == rows && expected == pageStart + |rows| * MINUTE_MS
  {
    yielded, expected, failure := [], pageStart, None;
    var i := 0;
    assert rows[0..] == rows;
    while i < |rows|
      invariant 0 <= i <= |rows| && expected == pageStart + i * MINUTE_MS && yielded == rows[..i] && failure.None?
      invariant FirstWrong(rows, pair, pageStart, pageStart, pageEnd) == FirstWrong(rows[i..], pair, expected, pageStart, pageEnd)
      invariant RightPart(rows, pair, pageStart, pageStart, pageEnd) ==
                yielded + RightPart(rows[i..], pair, expected, pageStart, pageEnd)
    {
      var candle := rows[i];
      RowAhead(rows, i, pair, expected, pageStart, pageEnd);
      hide FirstWrong, RightPart;
      if candle.pair != pair {
        failure := Some(INVALID_ROW);
        return;
      }
      if candle.openTimeMs < expected {
        failure := Some(DATASET_ORDER_VIOLATION);
        return;
      }
      if candle.openTimeMs > expected {
        failure := Some(DATASET_GAP);
        return;
      }
      if candle.openTimeMs < pageStart || candle.openTimeMs >= pageEnd {
        failure := Some(DATASET_ORDER_VIOLATION);
        return;
      }
      expected := expected + MINUTE_MS;
      yielded := yielded + [candle];
      i := i + 1;
    }
  }

  lemma {:induction false} RowAhead(rows: seq<Row>, i: nat, pair: string, expected: int, pageStart: int, pageEnd: int)
    requires i < |rows|
    ensures rows[..i + 1] == rows[..i] + [rows[i]]
    ensures FirstWrong(rows[i..], pair, expected, pageStart, pageEnd) ==
            if rows[i].pair != pair then Some(INVALID_ROW)
            else if rows[i].openTimeMs < expected then Some(DATASET_ORDER_VIOLATION)
            else if rows[i].openTimeMs > expected then Some(DATASET_GAP)
            else if rows[i].openTimeMs < pageStart || rows[i].openTimeMs >= pageEnd then Some(DATASET_ORDER_VIOLATION)
            else FirstWrong(rows[i + 1..], pair, expected + MINUTE_MS, pageStart, pageEnd)
    ensures RightPart(rows[i..], pair, expected, pageStart, pageEnd) ==
            if Right(rows[i], pair, expected, pageStart, pageEnd)
            then [rows[i]] + RightPart(rows[i + 1..], pair, expected + MINUTE_MS, pageStart, pageEnd) else []
  {
    var rest := rows[i..];
    assert rest[0] == rows[i] && rest[1..] == rows[i + 1..];
  }

  /** The loop over the pages: the rows yielded, and why the replay failed, if it did. */
  method ReplayVerifiedDataset(source: Source, pair: string, fromMs: int, toMs: int, pageMs: int)
    returns (yielded: seq<Row>, failure: Option<ReplayError>)
    requires pageMs > 0 && fromMs <= toMs
    ensures yielded == Yielded(source, pair, fromMs, toMs, pageMs)
    ensures Replayed(source, pair, fromMs, toMs, pageMs) == if failure.Some? then Err(failure.value) else Ok(yielded)
    ensures EveryMinute(yielded, fromMs) && forall k :: 0 <= k < |yielded| ==> yielded[k].pair == pair
    ensures failure.None? ==> Full(yielded, fromMs, toMs)
  {
    YieldedIsExact(source, pair, fromMs, toMs, pageMs);
    ReplayIsExact(source, pair, fromMs, toMs, pageMs);
    hide EveryMinute, FirstWrong, RightPart, Yielded, Replayed, Full, Fills;
    yielded, failure := [], None;
    var pageStart := fromMs;
    while pageStart < toMs
      invariant fromMs <= pageStart <= toMs && failure.None?
      invariant Yielded(source, pair, fromMs, toMs, pageMs) == yielded + Yielded(source, pair, pageStart, toMs, pageMs)
      invariant Ending(Replayed(source, pair, fromMs, toMs, pageMs)) == Ending(Replayed(source, pair, pageStart, toMs, pageMs))
      decreases toMs - pageStart
    {
      var pageEnd := Min(pageStart + pageMs, toMs);
      var rows := source(pageStart, pageEnd - MINUTE_MS);
      var page, expected, wrong := ReplayPage(rows, pair, pageStart, pageEnd);
      PageAhead(source, pair, pageStart, toMs, pageMs, yielded);
      yielded := yielded + page;
      failure := wrong;
      if failure.Some? {
        return;
      }
      if expected != pageEnd {
        failure := Some(DATASET_GAP);
        return;
      }
      pageStart := pageEnd;
    }
    NothingAhead(source, pair, pageStart, toMs, pageMs, yielded);
  }

  lemma {:induction false} NothingAhead(source: Source, pair: string, fromMs: int, toMs: int, pageMs: int, before: seq<Row>)
    requires pageMs > 0 && fromMs >= toMs
    ensures before + Yielded(source, pair, fromMs, toMs, pageMs) == before
    ensures Replayed(source, pair, fromMs, toMs, pageMs).Ok?
  {
  }

  /** What the next page decides. */
  lemma {:induction false} PageAhead(source: Source, pair: string, fromMs: int, toMs: int, pageMs: int, before: seq<Row>)
    requires pageMs > 0 && fromMs < toMs
    ensures var pageEnd := Min(fromMs + pageMs, toMs);
            var rows := source(fromMs, pageEnd - MINUTE_MS);
            var wrong := FirstWrong(rows, pair, fromMs, fromMs, pageEnd);
            var rest := Yielded(source, pair, pageEnd, toMs, pageMs);
            && Ending(Replayed(source, pair, fromMs, toMs, pageMs)) ==
               (if wrong.Some? then wrong
                else if fromMs + |rows| * MINUTE_MS != pageEnd then Some(DATASET_GAP)
                else Ending(Replayed(source, pair, pageEnd, toMs, pageMs)))
            && before + Yielded(source, pair, fromMs, toMs, pageMs) ==
               before + RightPart(rows, pair, fromMs, fromMs, pageEnd) +
               (if wrong.None? && fromMs + |rows| * MINUTE_MS == pageEnd then rest else [])
  {
    hide FirstWrong, RightPart;
  }

  function Ending(r: Result<seq<Row>>): Option<ReplayError> {
    if r.Err? then Some(r.error) else None
  }
}
