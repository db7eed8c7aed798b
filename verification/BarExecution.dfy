/** What a bar does to the orders, in terms of order fields, bar prices and the events that come of it: which orders trade,
    which leg of an OCO group is chosen, and at what price. */
module BarExecution {
  import opened Common
  import opened Ledger
  import opened BacktestEngine

  // -------------------------------------------------------- orders and prices

  /** The limit or stop price of an order. */
  function Level(o: Order): real {
    if o.kind == POST_ONLY_LIMIT then (if o.limitPrice.Some? then o.limitPrice.value else 0.0)
    else if o.stopPrice.Some? then o.stopPrice.value else 0.0
  }

  /** The bar trades through an open limit, or touches an open stop. */
  predicate Reached(o: Order, b: Bar) {
    && o.open
    && (|| (o.kind == POST_ONLY_LIMIT && o.side == BUY && b.low < Level(o))
        || (o.kind == POST_ONLY_LIMIT && o.side == SELL && b.high > Level(o))
        || (o.kind == STOP_MARKET && o.side == BUY && b.high >= Level(o))
        || (o.kind == STOP_MARKET && o.side == SELL && b.low <= Level(o)))
  }

  /** The price that a market or stop order takes as its reference: the open, or the stop unless the bar opened beyond it. */
  function Reference(o: Order, b: Bar): real {
    if o.kind == MARKET then b.open
    else if (o.side == BUY && b.open > Level(o)) || (o.side == SELL && b.open < Level(o)) then b.open
    else Level(o)
  }

  /** What a fill of the order on this bar is booked as: a limit at its own price as maker; a market or stop order worsened by
      half the spread and its slippage, as taker. */
  function Booked(o: Order, b: Bar, t: Terms): Fill {
    if o.kind == POST_ONLY_LIMIT then Fill(o.side, o.quantity, Level(o), Level(o), MAKER, t.makerFee, 0.0, 0.0)
    else
      var slippage := if o.kind == MARKET then t.marketSlippage else t.stopSlippage;
      var costs := t.halfSpread + slippage;
      var price := if o.side == BUY then Reference(o, b) * (1.0 + costs) else Reference(o, b) * (1.0 - costs);
      Fill(o.side, o.quantity, price, Reference(o, b), TAKER, t.takerFee, t.halfSpread, slippage)
  }

  /** A reduce-only order fits the position, and the fill is worth the minimum. */
  predicate Fillable(o: Order, a: Account, price: real, t: Terms) {
    && (o.reduceOnly ==> ((a.side == LONG && o.side == SELL) || (a.side == SHORT && o.side == BUY)) && o.quantity <= a.quantity)
    && o.quantity * price * t.multiplier >= t.minNotional
  }

  lemma {:induction false} CandidateIsBooked(o: Order, b: Bar, t: Terms)
    ensures IntrabarCandidate(o, b, t).Some? <==> Reached(o, b)
    ensures IntrabarCandidate(o, b, t).Some? ==> FillOf(o, IntrabarCandidate(o, b, t).value, t) == Booked(o, b, t)
    ensures IntrabarCandidate(o, b, t).Some? ==> IntrabarCandidate(o, b, t).value.fillPrice == Booked(o, b, t).fillPrice
    ensures o.kind == MARKET ==> FillOf(o, MarketCandidate(o, b.open, t), t) == Booked(o, b, t)
    ensures o.kind == MARKET ==> MarketCandidate(o, b.open, t).fillPrice == Booked(o, b, t).fillPrice
  {
  }

  lemma {:induction false} ExecutableIsFillable(s: State, o: Order, c: BacktestEngine.Candidate, t: Terms)
    ensures Executable(s, o, c, t) <==> Fillable(o, s.account, c.fillPrice, t)
  {
  }

  // ------------------------------------------------------------- OCO choices

  /** A stop of the group that the bar reaches and that would close the position at a loss. */
  predicate Protective(s: State, b: Bar, group: string, id: nat) {
    && id in s.orders && s.orders[id].group == Some(group) && Reached(s.orders[id], b) && s.orders[id].kind == STOP_MARKET
    && ((s.account.side == LONG && s.orders[id].side == SELL) || (s.account.side == SHORT && s.orders[id].side == BUY))
  }

  predicate ReachedInGroup(s: State, b: Bar, group: string, id: nat) {
    id in s.orders && s.orders[id].group == Some(group) && Reached(s.orders[id], b)
  }

  /** An order that may trade inside the bar: of each group the lowest-numbered protective stop, or, if the bar reaches none,
      the lowest-numbered order that it does reach. */
  ghost predicate Chosen(s: State, b: Bar, id: nat) {
    && id in s.orders && Reached(s.orders[id], b)
    && (s.orders[id].group.Some? ==>
          var group := s.orders[id].group.value;
          if exists other :: Protective(s, b, group, other)
          then Protective(s, b, group, id) && forall other :: Protective(s, b, group, other) ==> id <= other
          else forall other :: ReachedInGroup(s, b, group, other) ==> id <= other)
  }

  lemma {:induction false} SelectedIsChosen(s: State, b: Bar, t: Terms, id: nat)
    ensures id in SelectedOrders(s, b, t) <==> Chosen(s, b, id)
  {
    hide IntrabarCandidate, Reached;
    forall other | other in s.orders ensures Eligible(s.orders, other, b, t) <==> Reached(s.orders[other], b) {
      CandidateIsBooked(s.orders[other], b, t);
    }
    if id in s.orders && Reached(s.orders[id], b) && s.orders[id].group.Some? {
      var group := s.orders[id].group.value;
      forall other ensures ReachedInGroup(s, b, group, other) <==> other in s.orders && Rival(s.orders, id, other, b, t) {
      }
      forall other ensures Protective(s, b, group, other) <==>
                             ReachedInGroup(s, b, group, other) && Adverse(s.orders[other], s.account.side) {
      }
      GroupChoice(s, b, t, id, group);
    }
  }

  lemma {:induction false} GroupChoice(s: State, b: Bar, t: Terms, id: nat, group: string)
    requires id in s.orders && ReachedInGroup(s, b, group, id)
    requires forall other :: ReachedInGroup(s, b, group, other) <==> other in s.orders && Rival(s.orders, id, other, b, t)
    requires forall other :: Protective(s, b, group, other) <==>
                               ReachedInGroup(s, b, group, other) && Adverse(s.orders[other], s.account.side)
    ensures Eligible(s.orders, id, b, t) ==> (Selected(s, id, b, t) <==> Chosen(s, b, id))
  {
    hide Rival, ReachedInGroup, Protective, Adverse, Eligible, Reached;
    GroupOf(s, b, group, id);
    if Adverse(s.orders[id], s.account.side) {
      assert Protective(s, b, group, id);
    }
  }

  lemma {:induction false} GroupOf(s: State, b: Bar, group: string, id: nat)
    requires ReachedInGroup(s, b, group, id)
    ensures id in s.orders && s.orders[id].group == Some(group) && Reached(s.orders[id], b)
  {
  }

  // --------------------------------------------------------- a run of trades

  /** The account after the fills among some events. */
  function After(a: Account, news: seq<Event>): Account {
    if news == [] then a
    else if news[|news| - 1].Filled? then news[|news| - 1].after
    else After(a, news[..|news| - 1])
  }

  predicate SiblingFilled(o: Order, id: nat, earlier: seq<Event>) {
    o.group.Some? && exists e <- earlier :: e.Filled? && e.order.group == o.group && e.id != id
  }

  /** Why an event may follow `earlier` ones: a chosen order fills as booked if it is fillable then, and is rejected if it is
      not; an order is cancelled because a sibling of its group has filled. */
  predicate Explained(s: State, earlier: seq<Event>, e: Event, b: Bar, t: Terms, timeMs: int, chosen: set<nat>) {
    var a := After(s.account, earlier);
    match e
    case Filled(id, at, o, barOpenMs, issued, before, after) =>
      && id in chosen && id in s.orders && o == s.orders[id] && at == timeMs && barOpenMs == b.openTimeMs && before == a
      && a.quantity >= 0.0 && FillAcceptable(Booked(o, b, t)) && Fillable(o, a, Booked(o, b, t).fillPrice, t)
      && after == Ledger.Filled(a, Booked(o, b, t))
    case Rejected(id, at) =>
      id in chosen && id in s.orders && at == timeMs && !Fillable(s.orders[id], a, Booked(s.orders[id], b, t).fillPrice, t)
    case Cancelled(id, at) => id in s.orders && at == timeMs && SiblingFilled(s.orders[id], id, earlier)
    case _ => false
  }

  predicate AllExplained(s: State, news: seq<Event>, b: Bar, t: Terms, timeMs: int, chosen: set<nat>) {
    forall k :: 0 <= k < |news| ==> Explained(s, news[..k], news[k], b, t, timeMs, chosen)
  }

  predicate Executed(news: seq<Event>, id: nat) {
    exists e <- news :: (e.Filled? || e.Rejected?) && e.id == id
  }

  predicate Dropped(news: seq<Event>, id: nat) {
    exists e <- news :: e.Cancelled? && e.id == id
  }

  /** Executions happen in the order of the orders' numbers, up to `n`. */
  predicate InOrder(news: seq<Event>, n: nat) {
    && (forall e <- news :: e.Filled? || e.Rejected? ==> e.id <= n)
    && (forall i, j :: 0 <= i < j < |news| && (news[i].Filled? || news[i].Rejected?) && (news[j].Filled? || news[j].Rejected?) ==>
          news[i].id < news[j].id)
  }

  /** From `s` to `s'` by the trades of the chosen orders numbered up to `n`: every event is explained, orders leave only by an
      event of their own, every chosen order up to `n` has been executed in its turn, and none above it has left. */
  predicate Traded(s: State, s': State, news: seq<Event>, b: Bar, t: Terms, timeMs: int, chosen: set<nat>, n: nat) {
    && s'.log == s.log + news && s'.account == After(s.account, news) && s'.issued == s.issued && s'.fundingIndex == s.fundingIndex
    && AllExplained(s, news, b, t, timeMs, chosen) && InOrder(news, n)
    && (forall id <- s'.orders :: id in s.orders && s'.orders[id] == s.orders[id])
    && (forall id <- s.orders :: id !in s'.orders ==> Executed(news, id) || Dropped(news, id))
    && (!s'.failed ==> forall id <- s.orders :: id in chosen && 1 <= id <= n ==> Executed(news, id))
    && (forall id <- s.orders :: id in chosen && id > n ==> id in s'.orders)
  }

  lemma {:induction false} Prefixes(news: seq<Event>, e: Event)
    ensures (news + [e])[..|news|] == news && (news + [e])[|news|] == e
    ensures forall k :: 0 <= k < |news| ==> (news + [e])[..k] == news[..k] && (news + [e])[k] == news[k]
  {
  }

  lemma {:induction false} AnotherExplained(s: State, news: seq<Event>, e: Event, b: Bar, t: Terms, timeMs: int, chosen: set<nat>)
    requires AllExplained(s, news, b, t, timeMs, chosen) && Explained(s, news, e, b, t, timeMs, chosen)
    ensures AllExplained(s, news + [e], b, t, timeMs, chosen)
  {
    hide Explained;
    Prefixes(news, e);
  }

  lemma {:induction false} LaterNews(news: seq<Event>, e: Event)
    ensures forall id :: Executed(news, id) ==> Executed(news + [e], id)
    ensures forall id :: Dropped(news, id) ==> Dropped(news + [e], id)
    ensures (e.Filled? || e.Rejected?) ==> Executed(news + [e], e.id)
    ensures e.Cancelled? ==> Dropped(news + [e], e.id)
    ensures forall a :: After(a, news + [e]) == if e.Filled? then e.after else After(a, news)
  {
    Prefixes(news, e);
    assert e in news + [e];
    forall id | Executed(news, id) ensures Executed(news + [e], id) {
      var x :| x in news && (x.Filled? || x.Rejected?) && x.id == id;
      assert x in news + [e];
    }
    forall id | Dropped(news, id) ensures Dropped(news + [e], id) {
      var x :| x in news && x.Cancelled? && x.id == id;
      assert x in news + [e];
    }
  }

  lemma {:induction false} StillInOrder(news: seq<Event>, e: Event, m: nat, n: nat)
    requires InOrder(news, m) && m <= n && (e.Filled? || e.Rejected? ==> m < e.id <= n)
    ensures InOrder(news + [e], n)
  {
    Prefixes(news, e);
    assert forall x <- news + [e] :: x in news || x == e;
    assert forall i :: 0 <= i < |news| ==> news[i] in news;
  }

  /** The next chosen order fills or is rejected, or aborts the run. */
  lemma {:induction false} ExecutionTrades(s: State, s1: State, news: seq<Event>, c: BacktestEngine.Candidate, b: Bar, t: Terms, timeMs: int,
                                           chosen: set<nat>, n: nat) returns (news': seq<Event>)
    requires n > 0 && Traded(s, s1, news, b, t, timeMs, chosen, n - 1) && !s1.failed && n in chosen && n in s1.orders
    requires FillOf(s1.orders[n], c, t) == Booked(s1.orders[n], b, t) && c.fillPrice == Booked(s1.orders[n], b, t).fillPrice
    ensures Traded(s, Execute(s1, n, c, b.openTimeMs, timeMs, t), news', b, t, timeMs, chosen, n)
    ensures !Execute(s1, n, c, b.openTimeMs, timeMs, t).failed && Executable(s1, s1.orders[n], c, t) ==>
              news' != [] && news'[|news'| - 1].Filled? && news'[|news'| - 1].id == n && news'[|news'| - 1].order == s.orders[n]
  {
    hide Executable, Fillable, FillOf, Booked, Ledger.Filled, FillAcceptable, AllExplained, After, Executed, Dropped, InOrder;
    var o := s1.orders[n];
    HigherOrder(news, n - 1, n);
    var s' := Execute(s1, n, c, b.openTimeMs, timeMs, t);
    ExecutableIsFillable(s1, o, c, t);
    if s'.failed {
      news' := news;
    } else {
      var e := s'.log[|s1.log|];
      news' := news + [e];
      AnotherExplained(s, news, e, b, t, timeMs, chosen);
      LaterNews(news, e);
      StillInOrder(news, e, n - 1, n);
    }
  }

  lemma {:induction false} HigherOrder(news: seq<Event>, m: nat, n: nat)
    requires InOrder(news, m) && m <= n
    ensures InOrder(news, n)
  {
  }

  /** The remaining orders of a group leave after one of it has filled. */
  lemma {:induction false} CancellationTrades(s: State, s1: State, news: seq<Event>, group: string, m: nat, filled: Event, b: Bar, t: Terms,
                                              timeMs: int, chosen: set<nat>, n: nat) returns (news': seq<Event>)
    requires Traded(s, s1, news, b, t, timeMs, chosen, n) && n !in s1.orders
    requires filled in news && filled.Filled? && filled.order.group == Some(group) && filled.id == n
    requires forall id <- s.orders :: id in chosen && s.orders[id].group == Some(group) ==> id == n
    ensures Traded(s, CancelGroupUpTo(s1, group, m, timeMs), news', b, t, timeMs, chosen, n)
    ensures CancelGroupUpTo(s1, group, m, timeMs).failed == s1.failed && filled in news'
    ensures n !in CancelGroupUpTo(s1, group, m, timeMs).orders
    ensures forall id <- CancelGroupUpTo(s1, group, m, timeMs).orders :: 1 <= id <= m ==>
              CancelGroupUpTo(s1, group, m, timeMs).orders[id].group != Some(group)
  {
    hide Booked, Ledger.Filled, AllExplained, After, Executed, Dropped, InOrder;
    if m == 0 {
      news' := news;
    } else {
      var news1 := CancellationTrades(s, s1, news, group, m - 1, filled, b, t, timeMs, chosen, n);
      var s2 := CancelGroupUpTo(s1, group, m - 1, timeMs);
      if m in s2.orders && s2.orders[m].group == Some(group) {
        var e := Cancelled(m, timeMs);
        news' := news1 + [e];
        assert SiblingFilled(s.orders[m], m, news1);
        AnotherExplained(s, news1, e, b, t, timeMs, chosen);
        LaterNews(news1, e);
        StillInOrder(news1, e, n, n);
      } else {
        news' := news1;
      }
    }
  }

  lemma {:induction false} NotChosenNext(s: State, s1: State, news: seq<Event>, b: Bar, t: Terms, timeMs: int, chosen: set<nat>, n: nat)
    requires n > 0 && Traded(s, s1, news, b, t, timeMs, chosen, n - 1) && (s1.failed || n !in chosen || n !in s1.orders)
    ensures Traded(s, s1, news, b, t, timeMs, chosen, n)
  {
    hide AllExplained, After, Executed, Dropped, InOrder;
    HigherOrder(news, n - 1, n);
  }

  lemma {:induction false} NothingTraded(s: State, b: Bar, t: Terms, timeMs: int, chosen: set<nat>)
    ensures Traded(s, s, [], b, t, timeMs, chosen, 0)
  {
    assert s.log + [] == s.log;
  }

  // --------------------------------------------------------- inside the bar

  /** No issued order is left of a group of which one has filled. */
  predicate GroupsClosed(s: State, news: seq<Event>) {
    forall e, id | e in news && e.Filled? && id in s.orders ::
      e.order.group.Some? && s.orders[id].group == e.order.group ==> !(1 <= id <= s.issued)
  }

  ghost predicate OnePerGroup(s: State, chosen: set<nat>) {
    forall id, other | id in chosen && other in chosen && id in s.orders && other in s.orders ::
      s.orders[id].group.Some? && s.orders[id].group == s.orders[other].group ==> id == other
  }

  lemma {:induction false} ChosenOnePerGroup(s: State, b: Bar, t: Terms)
    ensures OnePerGroup(s, SelectedOrders(s, b, t))
  {
    var chosen := SelectedOrders(s, b, t);
    hide Reached, SelectedOrders;
    forall id, other | id in chosen && other in chosen && id in s.orders && other in s.orders
                       && s.orders[id].group.Some? && s.orders[id].group == s.orders[other].group
      ensures id == other {
      SelectedIsChosen(s, b, t, id);
      SelectedIsChosen(s, b, t, other);
      var group := s.orders[id].group.value;
      assert ReachedInGroup(s, b, group, id) && ReachedInGroup(s, b, group, other);
      hide Protective;
    }
  }

  lemma {:induction false} IntrabarTrades(s: State, b: Bar, t: Terms, n: nat) returns (news: seq<Event>)
    requires !s.failed
    ensures var chosen := SelectedOrders(s, b, t);
            var s' := TradeIntrabarUpTo(s, chosen, b, n, t);
            Traded(s, s', news, b, t, b.openTimeMs + MINUTE_MS, chosen, n) && (!s'.failed ==> GroupsClosed(s', news))
  {
    var chosen, timeMs := SelectedOrders(s, b, t), b.openTimeMs + MINUTE_MS;
    hide SelectedOrders, Traded, GroupsClosed, TradeIntrabar;
    if n == 0 {
      NothingTraded(s, b, t, timeMs, chosen);
      NothingClosed(s);
      news := [];
    } else {
      var news1 := IntrabarTrades(s, b, t, n - 1);
      var s1 := TradeIntrabarUpTo(s, chosen, b, n - 1, t);
      if s1.failed || n !in chosen || n !in s1.orders {
        NotChosenNext(s, s1, news1, b, t, timeMs, chosen, n);
        news := news1;
      } else {
        ChosenOnePerGroup(s, b, t);
        news := OneIntrabarTrade(s, s1, news1, b, t, chosen, n);
      }
    }
  }

  lemma {:induction false} NothingClosed(s: State)
    ensures GroupsClosed(s, [])
  {
  }

  lemma {:induction false} OneIntrabarTrade(s: State, s1: State, news1: seq<Event>, b: Bar, t: Terms, chosen: set<nat>, n: nat)
    returns (news: seq<Event>)
    requires n > 0 && Traded(s, s1, news1, b, t, b.openTimeMs + MINUTE_MS, chosen, n - 1) && GroupsClosed(s1, news1)
    requires !s1.failed && n in chosen && n in s1.orders && chosen == SelectedOrders(s, b, t) && OnePerGroup(s, chosen)
    ensures var s' := TradeIntrabar(s1, n, b, t);
            Traded(s, s', news, b, t, b.openTimeMs + MINUTE_MS, chosen, n) && (!s'.failed ==> GroupsClosed(s', news))
  {
    hide IntrabarCandidate, Booked, FillOf, Reached, Protective, ReachedInGroup, Traded, GroupsClosed, ClosedBut, Execute, Executable,
      CancelGroupUpTo, SelectedOrders;
    var timeMs := b.openTimeMs + MINUTE_MS;
    var o := s1.orders[n];
    TradedKeeps(s, s1, news1, b, t, timeMs, chosen, n - 1);
    SelectedIsChosen(s, b, t, n);
    CandidateIsBooked(o, b, t);
    var c := IntrabarCandidate(o, b, t).value;
    var s2 := Execute(s1, n, c, b.openTimeMs, timeMs, t);
    var news2 := ExecutionTrades(s, s1, news1, c, b, t, timeMs, chosen, n);
    ExecutionKeepsClosed(s1, n, c, b, t, timeMs, s, news1, news2, chosen);
    if s2.failed || !Executable(s1, o, c, t) || o.group.None? {
      news := news2;
    } else {
      var filled := news2[|news2| - 1];
      ExecutedIsGone(s1, n, c, b, t, timeMs);
      news := CancellationTrades(s, s2, news2, o.group.value, s2.issued, filled, b, t, timeMs, chosen, n);
      CancellationCloses(s, s2, news2, news, o.group.value, filled, b, t, timeMs, chosen, n);
    }
  }

  lemma {:induction false} TradedKeeps(s: State, s1: State, news: seq<Event>, b: Bar, t: Terms, timeMs: int, chosen: set<nat>, n: nat)
    requires Traded(s, s1, news, b, t, timeMs, chosen, n)
    ensures s1.issued == s.issued && s1.log == s.log + news
    ensures forall id <- s1.orders :: id in s.orders && s1.orders[id] == s.orders[id]
  {
    hide AllExplained, Executed, Dropped, After, InOrder;
  }

  lemma {:induction false} ExecutedIsGone(s: State, n: nat, c: BacktestEngine.Candidate, b: Bar, t: Terms, timeMs: int)
    requires n in s.orders
    ensures var s' := Execute(s, n, c, b.openTimeMs, timeMs, t); s'.failed || n !in s'.orders
  {
    hide Executable, FillOf, FillAcceptable, Ledger.Filled;
  }

  /** Until its siblings are cancelled, only the group of the order that just filled can still be open. */
  predicate ClosedBut(s: State, news: seq<Event>, group: Option<string>) {
    forall e, id | e in news && e.Filled? && id in s.orders ::
      e.order.group.Some? && e.order.group != group && s.orders[id].group == e.order.group ==> !(1 <= id <= s.issued)
  }

  lemma {:induction false} ExecutionKeepsClosed(s1: State, n: nat, c: BacktestEngine.Candidate, b: Bar, t: Terms, timeMs: int, s: State,
                                                news1: seq<Event>, news2: seq<Event>, chosen: set<nat>)
    requires n > 0 && n in s1.orders && GroupsClosed(s1, news1) && !s1.failed
    requires Traded(s, s1, news1, b, t, timeMs, chosen, n - 1)
    requires Traded(s, Execute(s1, n, c, b.openTimeMs, timeMs, t), news2, b, t, timeMs, chosen, n)
    ensures var s2 := Execute(s1, n, c, b.openTimeMs, timeMs, t);
            !s2.failed ==> ClosedBut(s2, news2, s1.orders[n].group) && (!Executable(s1, s1.orders[n], c, t) || s1.orders[n].group.None? ==>
              GroupsClosed(s2, news2))
  {
    hide Executable, FillOf, FillAcceptable, Ledger.Filled, AllExplained, Executed, Dropped, After, InOrder;
    var s2 := Execute(s1, n, c, b.openTimeMs, timeMs, t);
    if !s2.failed {
      var e := s2.log[|s1.log|];
      assert news2 == news1 + [e] by {
        assert s.log + news2 == (s.log + news1) + [e];
        assert (s.log + news2)[|s.log|..] == news2;
        assert ((s.log + news1) + [e])[|s.log|..] == news1 + [e];
      }
      assert forall x <- news2 :: x in news1 || x == e;
    }
  }

  lemma {:induction false} CancellationCloses(s: State, s2: State, news2: seq<Event>, news: seq<Event>, group: string, filled: Event, b: Bar, t: Terms,
                                              timeMs: int, chosen: set<nat>, n: nat)
    requires ClosedBut(s2, news2, Some(group)) && Traded(s, s2, news2, b, t, timeMs, chosen, n)
    requires var s' := CancelGroupUpTo(s2, group, s2.issued, timeMs);
             && Traded(s, s', news, b, t, timeMs, chosen, n)
             && forall id <- s'.orders :: 1 <= id <= s2.issued ==> s'.orders[id].group != Some(group)
    ensures GroupsClosed(CancelGroupUpTo(s2, group, s2.issued, timeMs), news)
  {
    hide AllExplained, Executed, Dropped, After, InOrder;
    var s' := CancelGroupUpTo(s2, group, s2.issued, timeMs);
    CancellationsOnly(s2, group, s2.issued, timeMs);
    forall e | e in news && e.Filled? ensures e in news2 {
      var k :| 0 <= k < |news| && news[k] == e;
      assert s'.log[|s.log| + k] == e;
      assert |s.log| + k < |s2.log|;
      assert s2.log[|s.log| + k] == e;
      assert news2[k] == e;
    }
  }

  lemma {:induction false} CancellationsOnly(s: State, group: string, m: nat, timeMs: int)
    ensures var s' := CancelGroupUpTo(s, group, m, timeMs);
            && |s.log| <= |s'.log| && s'.log[..|s.log|] == s.log && (forall k :: |s.log| <= k < |s'.log| ==> s'.log[k].Cancelled?)
            && (forall id <- s'.orders :: id in s.orders && s'.orders[id] == s.orders[id])
            && s'.issued == s.issued
  {
    if m > 0 {
      CancellationsOnly(s, group, m - 1, timeMs);
    }
  }

  /** Inside a bar, from any state. Unless pricing the reached orders already aborts the run, exactly the chosen orders are
      executed, in the order of their numbers: each fills as booked if it is fillable at that moment and is rejected
      otherwise; every other leg of a group that fills is cancelled; nothing else leaves the book; and an order is chosen by
      what the position was when the bar began. */
  lemma {:induction false} IntrabarIsExact(s: State, b: Bar, t: Terms) returns (chosen: set<nat>, news: seq<Event>)
    requires !s.failed
    ensures forall id :: id in chosen <==> Chosen(s, b, id)
    ensures var s' := ProcessIntrabar(s, b, t);
            if exists id :: id in s.orders && s.orders[id].kind == STOP_MARKET && Reached(s.orders[id], b)
                            && Booked(s.orders[id], b, t).fillPrice <= 0.0
            then s' == s.(failed := true)
            else Traded(s, s', news, b, t, b.openTimeMs + MINUTE_MS, chosen, s.issued) && (!s'.failed ==> GroupsClosed(s', news))
  {
    chosen := SelectedOrders(s, b, t);
    hide SelectedOrders, Traded, GroupsClosed, TradeIntrabarUpTo, Priceable, Chosen, Reached, Booked;
    forall id ensures id in chosen <==> Chosen(s, b, id) {
      SelectedIsChosen(s, b, t, id);
    }
    PriceableExactly(s, b, t);
    news := IntrabarTrades(s, b, t, s.issued);
  }

  lemma {:induction false} PriceableExactly(s: State, b: Bar, t: Terms)
    ensures Priceable(s, b, t) <==>
              !exists id :: id in s.orders && s.orders[id].kind == STOP_MARKET && Reached(s.orders[id], b)
                            && Booked(s.orders[id], b, t).fillPrice <= 0.0
  {
    hide IntrabarCandidate, Reached, Booked, FillOf;
    forall id | id in s.orders ensures Eligible(s.orders, id, b, t) <==> Reached(s.orders[id], b) {
      CandidateIsBooked(s.orders[id], b, t);
    }
    forall id | id in s.orders && Reached(s.orders[id], b)
      ensures IntrabarCandidate(s.orders[id], b, t).value.fillPrice == Booked(s.orders[id], b, t).fillPrice {
      CandidateIsBooked(s.orders[id], b, t);
    }
  }

  /** The choice of an OCO leg. If a position is held when the bar is traded and the bar reaches a protective stop of a group,
      only the lowest-numbered such stop of that group fills and no limit of it does; if it reaches none, only the
      lowest-numbered order of the group that it reaches fills. */
  lemma {:induction false} OcoLegIsChosen(s: State, b: Bar, t: Terms, k: nat)
    requires !s.failed && |s.log| <= k < |ProcessIntrabar(s, b, t).log| && ProcessIntrabar(s, b, t).log[k].Filled?
    requires ProcessIntrabar(s, b, t).log[k].order.group.Some?
    ensures var e := ProcessIntrabar(s, b, t).log[k];
            var group := e.order.group.value;
            && e.id in s.orders && s.orders[e.id] == e.order && Reached(e.order, b)
            && (forall other :: Protective(s, b, group, other) ==>
                  e.order.kind == STOP_MARKET && Protective(s, b, group, e.id) && e.id <= other)
            && ((forall other :: !Protective(s, b, group, other)) ==>
                  forall other :: ReachedInGroup(s, b, group, other) ==> e.id <= other)
  {
    hide ProcessIntrabar, Reached, Booked, Ledger.Filled, Protective, ReachedInGroup, Chosen, Fillable, FillAcceptable, Executed, Dropped,
      GroupsClosed, InOrder, After;
    var chosen, news := IntrabarIsExact(s, b, t);
    var s' := ProcessIntrabar(s, b, t);
    var e := s'.log[k];
    assert s' != s.(failed := true);
    assert e == news[k - |s.log|];
    assert Explained(s, news[..k - |s.log|], e, b, t, b.openTimeMs + MINUTE_MS, chosen);
    ChosenLeg(s, b, e.id);
  }

  lemma {:induction false} ChosenLeg(s: State, b: Bar, id: nat)
    requires Chosen(s, b, id) && s.orders[id].group.Some?
    ensures var group := s.orders[id].group.value;
            && Reached(s.orders[id], b)
            && (forall other :: Protective(s, b, group, other) ==>
                  s.orders[id].kind == STOP_MARKET && Protective(s, b, group, id) && id <= other)
            && ((forall other :: !Protective(s, b, group, other)) ==> forall other :: ReachedInGroup(s, b, group, other) ==> id <= other)
  {
    hide Reached, Protective, ReachedInGroup;
    ProtectiveIsStop(s, b, s.orders[id].group.value, id);
  }

  lemma {:induction false} ProtectiveIsStop(s: State, b: Bar, group: string, id: nat)
    ensures Protective(s, b, group, id) ==> id in s.orders && s.orders[id].kind == STOP_MARKET
  {
  }

  // ------------------------------------------------------ before the bar trades

  /** Requested cancellations take effect first: exactly those orders leave, each with its event. */
  ghost predicate CancelledFirst(s: State, s': State, news: seq<Event>, n: nat, requested: set<nat>, timeMs: int) {
    && s' == s.(orders := s'.orders, pendingCancellations := s'.pendingCancellations, log := s.log + news)
    && (forall id :: id in s'.orders <==> id in s.orders && !(id in requested && 1 <= id <= n))
    && (forall id <- s'.orders :: s'.orders[id] == s.orders[id])
    && (forall e <- news :: e.Cancelled? && e.timeMs == timeMs && e.id in s.orders && e.id in requested && 1 <= e.id <= n)
    && (forall id <- s.orders :: id in requested && 1 <= id <= n ==> Dropped(news, id))
  }

  lemma {:induction false} CancellationsUpTo(s: State, requested: set<nat>, n: nat, timeMs: int) returns (news: seq<Event>)
    ensures CancelledFirst(s, CancelUpTo(s, requested, n, timeMs), news, n, requested, timeMs)
  {
    hide Dropped;
    if n == 0 {
      news := [];
      assert s.log + [] == s.log;
    } else {
      news := CancellationsUpTo(s, requested, n - 1, timeMs);
      var s1 := CancelUpTo(s, requested, n - 1, timeMs);
      if n in requested && n in s1.orders {
        var e := Cancelled(n, timeMs);
        LaterNews(news, e);
        assert s.log + news + [e] == s.log + (news + [e]);
        assert forall x <- news + [e] :: x in news || x == e;
        news := news + [e];
      }
    }
  }

  lemma {:induction false} CancellationsAreExact(s: State, timeMs: int) returns (news: seq<Event>)
    ensures CancelledFirst(s.(pendingCancellations := {}), ApplyPendingCancellations(s, timeMs), news, s.issued, s.pendingCancellations, timeMs)
  {
    news := CancellationsUpTo(s.(pendingCancellations := {}), s.pendingCancellations, s.issued, timeMs);
  }

  /** A post-only limit that would trade at once at the open. */
  predicate Marketable(o: Order, b: Bar) {
    o.kind == POST_ONLY_LIMIT && ((o.side == BUY && Level(o) >= b.open) || (o.side == SELL && Level(o) <= b.open))
  }

  /** Pending orders open, unless they are post-only and marketable; those are rejected. */
  ghost predicate OrdersOpened(s: State, s': State, news: seq<Event>, b: Bar, n: nat) {
    && s' == s.(orders := s'.orders, pendingCancellations := s'.pendingCancellations, log := s.log + news)
    && (forall id :: id in s'.orders <==> id in s.orders && !(1 <= id <= n && !s.orders[id].open && Marketable(s.orders[id], b)))
    && (forall id <- s'.orders :: s'.orders[id] == if 1 <= id <= n then s.orders[id].(open := true) else s.orders[id])
    && (forall e <- news :: (e.Activated? || e.Rejected?) && e.timeMs == b.openTimeMs && 1 <= e.id <= n)
    && (forall e <- news :: e.id in s.orders && !s.orders[e.id].open && (e.Rejected? <==> Marketable(s.orders[e.id], b)))
    && (forall id <- s.orders :: 1 <= id <= n && !s.orders[id].open ==> Announced(news, id))
  }

  predicate Announced(news: seq<Event>, id: nat) {
    exists e <- news :: (e.Activated? || e.Rejected?) && e.id == id
  }

  lemma {:induction false} OpeningUpTo(s: State, b: Bar, n: nat) returns (news: seq<Event>)
    ensures OrdersOpened(s, ActivateUpTo(s, b, n), news, b, n)
  {
    hide OrdersOpened, ActivateOne;
    if n == 0 {
      NothingOpened(s, b);
      news := [];
    } else {
      news := OpeningUpTo(s, b, n - 1);
      var s1 := ActivateUpTo(s, b, n - 1);
      if n in s1.orders && !s1.orders[n].open {
        news := OneOpens(s, s1, news, b, n);
      } else {
        NotOpeningNext(s, s1, news, b, n);
      }
    }
  }

  lemma {:induction false} NothingOpened(s: State, b: Bar)
    ensures OrdersOpened(s, s, [], b, 0)
  {
    assert s.log + [] == s.log;
  }

  lemma {:induction false} NotOpeningNext(s: State, s1: State, news: seq<Event>, b: Bar, n: nat)
    requires n > 0 && OrdersOpened(s, s1, news, b, n - 1) && (n !in s1.orders || s1.orders[n].open)
    ensures OrdersOpened(s, s1, news, b, n)
  {
    hide Marketable, Announced;
  }

  lemma {:induction false} OneOpens(s: State, s1: State, news: seq<Event>, b: Bar, n: nat) returns (news': seq<Event>)
    requires n > 0 && OrdersOpened(s, s1, news, b, n - 1) && n in s1.orders && !s1.orders[n].open
    ensures OrdersOpened(s, ActivateOne(s1, n, b), news', b, n)
  {
    hide Marketable, Announced, ActivateOne;
    var e := if Marketable(s1.orders[n], b) then Rejected(n, b.openTimeMs) else Activated(n, b.openTimeMs);
    var s2 := ActivateOne(s1, n, b);
    OneActivation(s1, n, b, e);
    AnnouncedLater(news, e);
    assert s.log + news + [e] == s.log + (news + [e]);
    assert forall x <- news + [e] :: x in news || x == e;
    news' := news + [e];
    assert s2 == s.(orders := s2.orders, pendingCancellations := s2.pendingCancellations, log := s.log + news');
    assert forall id <- s.orders :: 1 <= id <= n && !s.orders[id].open ==> Announced(news', id);
  }

  lemma {:induction false} OneActivation(s: State, n: nat, b: Bar, e: Event)
    requires n in s.orders && e == if Marketable(s.orders[n], b) then Rejected(n, b.openTimeMs) else Activated(n, b.openTimeMs)
    ensures var s' := ActivateOne(s, n, b);
            && s' == s.(orders := s'.orders, pendingCancellations := s'.pendingCancellations, log := s.log + [e])
            && s'.orders == if Marketable(s.orders[n], b) then s.orders - {n} else s.orders[n := s.orders[n].(open := true)]
  {
    hide Marketable, WouldTake;
    TakingIsMarketable(s.orders[n], b);
  }

  lemma {:induction false} TakingIsMarketable(o: Order, b: Bar)
    ensures WouldTake(o, b.open) <==> Marketable(o, b)
  {
  }

  lemma {:induction false} AnnouncedLater(news: seq<Event>, e: Event)
    ensures forall id :: Announced(news, id) ==> Announced(news + [e], id)
    ensures e.Activated? || e.Rejected? ==> Announced(news + [e], e.id)
  {
    assert (news + [e])[|news|] == e;
    forall id | Announced(news, id) ensures Announced(news + [e], id) {
      var x :| x in news && (x.Activated? || x.Rejected?) && x.id == id;
      assert x in news + [e];
    }
  }

  lemma {:induction false} OpenTrades(s1: State, chosen: set<nat>, b: Bar, t: Terms, n: nat) returns (news: seq<Event>)
    requires !s1.failed && forall id <- s1.orders :: id in chosen ==> s1.orders[id].kind == MARKET
    ensures Traded(s1, TradeAtOpenUpTo(s1, chosen, b, n, t), news, b, t, b.openTimeMs, chosen, n)
  {
    hide Traded, Execute;
    if n == 0 {
      NothingTraded(s1, b, t, b.openTimeMs, chosen);
      news := [];
    } else {
      var news1 := OpenTrades(s1, chosen, b, t, n - 1);
      var s2 := TradeAtOpenUpTo(s1, chosen, b, n - 1, t);
      if s2.failed || n !in chosen || n !in s2.orders {
        NotChosenNext(s1, s2, news1, b, t, b.openTimeMs, chosen, n);
        news := news1;
      } else {
        TradedKeeps(s1, s2, news1, b, t, b.openTimeMs, chosen, n - 1);
        CandidateIsBooked(s2.orders[n], b, t);
        var c := MarketCandidate(s2.orders[n], b.open, t);
        if c.fillPrice <= 0.0 {
          AbortedTrade(s1, s2, news1, b, t, b.openTimeMs, chosen, n);
          news := news1;
        } else {
          news := ExecutionTrades(s1, s2, news1, c, b, t, b.openTimeMs, chosen, n);
        }
      }
    }
  }

  lemma {:induction false} AbortedTrade(s: State, s1: State, news: seq<Event>, b: Bar, t: Terms, timeMs: int, chosen: set<nat>, n: nat)
    requires n > 0 && Traded(s, s1, news, b, t, timeMs, chosen, n - 1)
    ensures Traded(s, s1.(failed := true), news, b, t, timeMs, chosen, n)
  {
    hide AllExplained, After, Executed, Dropped, InOrder;
    HigherOrder(news, n - 1, n);
  }

  /** At the open of a bar, from any state: pending orders open or, if post-only and marketable, are rejected; then exactly the
      market orders among them are executed, each booked at the open and its costs. */
  lemma {:induction false} OpeningIsExact(s: State, b: Bar, t: Terms)
    returns (atOpen: State, announcements: seq<Event>, chosen: set<nat>, news: seq<Event>)
    requires !s.failed
    ensures OrdersOpened(s, atOpen, announcements, b, s.issued)
    ensures forall id :: id in chosen <==> id in s.orders && !s.orders[id].open && s.orders[id].kind == MARKET
    ensures Traded(atOpen, ActivateOrders(s, b, t), news, b, t, b.openTimeMs, chosen, s.issued)
  {
    atOpen := ActivateUpTo(s, b, s.issued);
    chosen := PendingMarket(s.orders);
    announcements := OpeningUpTo(s, b, s.issued);
    hide Traded, ActivateUpTo, TradeAtOpenUpTo, Marketable, Announced;
    news := OpenTrades(atOpen, chosen, b, t, s.issued);
  }
}
