/** The exception to the one-fill rule of OCO groups: a market leg fills at the open without
    cancelling its sibling, so both legs of one group may fill, even in the same bar. */
module OcoMarketLeg {
  import opened Common
  import opened Ledger
  import opened BacktestEngine
  import opened BacktestTheorems

  // ------------------------------------------- when a sibling outlives a fill

  /** One turn of the loop in which an order of this kind trades. */
  function Traded(s: State, id: nat, b: Bar, t: Terms): State
    requires id in s.orders
  {
    if s.orders[id].kind == MARKET then TradeAtOpen(s, id, b, t) else TradeIntrabar(s, id, b, t)
  }

  predicate FilledBy(s: State, s': State, id: nat) {
    |s'.log| > |s.log| && s'.log[|s.log|].Filled? && s'.log[|s.log|].id == id
  }

  lemma {:induction false} GroupCancelled(s: State, g: string, n: nat, timeMs: int)
    ensures var s' := CancelGroupUpTo(s, g, n, timeMs);
            && (forall id <- s'.orders :: id in s.orders && s'.orders[id] == s.orders[id])
            && (forall id <- s.orders :: id in s'.orders <==> !(1 <= id <= n && s.orders[id].group == Some(g)))
            && s.log <= s'.log
  {
    if n > 0 {
      GroupCancelled(s, g, n - 1, timeMs);
    }
  }

  /** After a grouped order has filled, another member of its group is still in the book exactly if it was a market order and
      there was another member. */
  lemma {:induction false} SiblingSurvivesExactly(s: State, id: nat, b: Bar, t: Terms, g: string)
    requires id in s.orders && s.orders[id].group == Some(g) && !s.failed && forall other <- s.orders :: 1 <= other <= s.issued
    requires FilledBy(s, Traded(s, id, b, t), id)
    ensures Group(Traded(s, id, b, t).orders, g) == if s.orders[id].kind == MARKET then Group(s.orders, g) - {id} else {}
    ensures Group(Traded(s, id, b, t).orders, g) != {} <==> s.orders[id].kind == MARKET && Group(s.orders, g) != {id}
  {
    var s' := Traded(s, id, b, t);
    hide Ledger.Filled, FillAcceptable, FillOf, MarketCandidate, IntrabarCandidate, Executable;
    if s.orders[id].kind == MARKET {
      assert s'.orders == s.orders - {id};
    } else {
      var c := IntrabarCandidate(s.orders[id], b, t).value;
      var s1 := Execute(s, id, c, b.openTimeMs, b.openTimeMs + MINUTE_MS, t);
      GroupCancelled(s1, g, s1.issued, b.openTimeMs + MINUTE_MS);
      assert s1.orders == s.orders - {id};
      forall other | other in s'.orders ensures s'.orders[other].group != Some(g) {
      }
    }
    assert id in Group(s.orders, g);
  }

  /** Over whole runs: if a second order of a group fills although it was there when the first one filled, the first was a
      market order. */
  lemma {:induction false} SecondFillFollowsMarketLeg(initialEquity: real, bars: seq<Bar>, actions: seq<Actions>, t: Terms, fromMs: int, i: nat, j: nat)
    requires TermsValid(t) && |actions| == |bars| && Contiguous(bars, fromMs)
    requires var log := Replay(initialEquity, bars, actions, t).log;
             && i < j < |log| && log[i].Filled? && log[j].Filled? && log[i].order.group.Some?
             && log[j].order.group == log[i].order.group && log[j].id <= log[i].issued
    ensures Replay(initialEquity, bars, actions, t).log[i].order.kind == MARKET
  {
    hide Replay;
    if ClosesGroup(Replay(initialEquity, bars, actions, t).log[i]) {
      OcoFillsOnce(initialEquity, bars, actions, t, fromMs, i, j);
    }
  }

  // ------------------------------------------------------- a run in which it does

  const TERMS: Terms := Terms("B-BTC_USDT", 1.0, 1.0, 1.0, 1.0, 0.0, 1.0, 0.0, 0.0, 0.0, 0.0, 0.0, 10, 0, 1_000_000, [])
  const GROUP: Option<string> := Some("exit")

  const OPENING: Actions := Actions([], [Intent("B-BTC_USDT", MARKET, BUY, 2.0, None, None, false, None, READABLE)])
  const MARKET_LEG: Intent := Intent("B-BTC_USDT", MARKET, SELL, 1.0, None, None, true, GROUP, READABLE)
  const STOP_LEG: Intent := Intent("B-BTC_USDT", STOP_MARKET, SELL, 1.0, None, Some(90.0), true, GROUP, READABLE)
  const CLOSING: Actions := Actions([], [MARKET_LEG, STOP_LEG])
  const NOTHING: Actions := Actions([], [])

  function Quiet(i: nat): Bar {
    Bar(i * MINUTE_MS, 100.0, 100.0, 100.0, 100.0)
  }

  const FALLING: Bar := Bar(2 * MINUTE_MS, 100.0, 100.0, 80.0, 85.0)

  const BARS: seq<Bar> := [Quiet(0), Quiet(1), FALLING]
  const ACTIONS: seq<Actions> := [OPENING, CLOSING, NOTHING]

  /** Accepting one intent. */
  lemma {:induction false} Accepts(s: State, i: Intent, timeMs: int) returns (o: Order)
    requires |s.orders| < TERMS.maxOpenOrders && IntentAcceptable(i, s.account, TERMS)
    requires i.group.Some? ==> |Group(s.orders, i.group.value)| < 2
    ensures o == Order(s.issued + 1, i.kind, i.side, i.quantity, i.limitPrice, i.stopPrice, i.reduceOnly, i.group, timeMs, false)
    ensures AcceptOrder(s, i, timeMs, TERMS) ==
            Logged(s.(issued := s.issued + 1, orders := s.orders[s.issued + 1 := o]), Accepted(s.issued + 1, timeMs))
  {
    o := Order(s.issued + 1, i.kind, i.side, i.quantity, i.limitPrice, i.stopPrice, i.reduceOnly, i.group, timeMs, false);
  }

  /** First bar: the entry order is accepted. */
  lemma {:induction false} FirstBar() returns (s: State)
    ensures s == ProcessBar(NewRun(1000.0, TERMS), Quiet(0), OPENING, TERMS)
    ensures !s.failed && s.pendingCancellations == {} && s.issued == 1 && s.fundingIndex == 0
    ensures s.orders == map[1 := Order(1, MARKET, BUY, 2.0, None, None, false, None, MINUTE_MS, false)]
    ensures Flat(s.account)
  {
    var s0 := NewRun(1000.0, TERMS);
    s := ProcessBar(s0, Quiet(0), OPENING, TERMS);
    assert ApplyPendingCancellations(s0, 0) == s0;
    assert ActivateOrders(s0, Quiet(0), TERMS) == s0;
    assert ProcessIntrabar(s0, Quiet(0), TERMS) == s0;
    var s1 := MarkAccount(s0, Quiet(0));
    assert s1.account == Marked(Opened(1000.0, 1.0), 100.0);
    assert ApplyFundingAt(s1, MINUTE_MS, TERMS) == s1;
    assert RequestCancellations(s1, [], MINUTE_MS) == s1;
    var intent := OPENING.submitOrders[0];
    assert OPENING.submitOrders[..0] == [];
    assert s == AcceptOrder(s1, intent, MINUTE_MS, TERMS);
    assert IntentAcceptable(intent, s1.account, TERMS) by {
      assert Aligned(2.0, 1.0);
    }
    var o := Accepts(s1, intent, MINUTE_MS);
  }

  const ENTRY: Order := Order(1, MARKET, BUY, 2.0, None, None, false, None, MINUTE_MS, false)
  const EXIT: Order := Order(2, MARKET, SELL, 1.0, None, None, true, GROUP, 2 * MINUTE_MS, false)
  const STOP: Order := Order(3, STOP_MARKET, SELL, 1.0, None, Some(90.0), true, GROUP, 2 * MINUTE_MS, false)

  predicate Flat(a: Account) {
    a.side == FLAT && a.quantity == 0.0 && a.averageEntryPrice == None && a.multiplier == 1.0
  }

  predicate Holding(a: Account, quantity: real) {
    a.side == LONG && a.quantity == quantity && a.averageEntryPrice == Some(100.0) && a.multiplier == 1.0
  }

  const ENTRY_FILL: Fill := Fill(BUY, 2.0, 100.0, 100.0, TAKER, 0.0, 0.0, 0.0)

  lemma {:induction false} EntryMoves(a: Account)
    requires Flat(a)
    ensures Holding(Ledger.Filled(a, ENTRY_FILL), 2.0)
  {
    hide Fee, Attribution;
  }

  /** The entry fills at the open of the second bar. */
  lemma {:induction false} EntryFills(s: State) returns (s': State)
    requires !s.failed && s.pendingCancellations == {} && s.issued == 1 && s.orders == map[1 := ENTRY]
    requires Flat(s.account)
    ensures s' == ActivateOrders(s, Quiet(1), TERMS)
    ensures !s'.failed && s'.pendingCancellations == {} && s'.issued == 1 && s'.orders == map[] && s'.fundingIndex == s.fundingIndex
    ensures Holding(s'.account, 2.0)
  {
    var b := Quiet(1);
    assert ActivateUpTo(s, b, 0) == s;
    var s1 := ActivateOne(s, 1, b);
    assert ActivateUpTo(s, b, 1) == s1;
    assert PendingMarket(s.orders) == {1};
    assert TradeAtOpenUpTo(s1, {1}, b, 0, TERMS) == s1;
    var c := MarketCandidate(s1.orders[1], 100.0, TERMS);
    s' := EntryExecutes(s1, b);
    hide Execute;
    assert TradeAtOpenUpTo(s1, {1}, b, 1, TERMS) == s';
  }

  lemma {:induction false} EntryExecutes(s: State, b: Bar) returns (s': State)
    requires !s.failed && s.orders == map[1 := ENTRY.(open := true)] && Flat(s.account) && b.open == 100.0
    ensures MarketCandidate(s.orders[1], b.open, TERMS) == Candidate(100.0, 100.0, TAKER, 0.0)
    ensures s' == Execute(s, 1, Candidate(100.0, 100.0, TAKER, 0.0), b.openTimeMs, b.openTimeMs, TERMS)
    ensures s'.orders == map[] && Holding(s'.account, 2.0)
    ensures s'.pendingCancellations == s.pendingCancellations && s'.issued == s.issued && !s'.failed && s'.fundingIndex == s.fundingIndex
  {
    var c := Candidate(100.0, 100.0, TAKER, 0.0);
    assert FillOf(s.orders[1], c, TERMS) == ENTRY_FILL;
    EntryMoves(s.account);
    hide Ledger.Filled, FillOf;
    s' := Execute(s, 1, c, b.openTimeMs, b.openTimeMs, TERMS);
    assert s'.orders == map[];
  }

  /** Second bar: both legs are accepted against the long position. */
  lemma {:induction false} SecondBar(s: State) returns (s': State)
    requires !s.failed && s.pendingCancellations == {} && s.issued == 1 && s.fundingIndex == 0 && s.orders == map[1 := ENTRY]
    requires Flat(s.account)
    ensures s' == ProcessBar(s, Quiet(1), CLOSING, TERMS)
    ensures !s'.failed && s'.pendingCancellations == {} && s'.issued == 3 && s'.fundingIndex == 0
    ensures s'.orders == map[2 := EXIT, 3 := STOP] && Holding(s'.account, 2.0)
  {
    assert CancelUpTo(s, {}, 0, MINUTE_MS) == s && CancelUpTo(s, {}, 1, MINUTE_MS) == s;
    assert ApplyPendingCancellations(s, MINUTE_MS) == s;
    var s1 := EntryFills(s);
    hide ActivateOrders, ApplyPendingCancellations;
    assert SelectedOrders(s1, Quiet(1), TERMS) == {};
    assert TradeIntrabarUpTo(s1, {}, Quiet(1), 0, TERMS) == s1 && TradeIntrabarUpTo(s1, {}, Quiet(1), 1, TERMS) == s1;
    assert ProcessIntrabar(s1, Quiet(1), TERMS) == s1;
    var s2 := MarkAccount(s1, Quiet(1));
    assert ApplyFundingAt(s2, 2 * MINUTE_MS, TERMS) == s2;
    s' := LegsAccepted(s2);
    assert RequestCancellations(s2, [], 2 * MINUTE_MS) == s2;
  }

  lemma {:induction false} LegsAccepted(s: State) returns (s': State)
    requires !s.failed && s.pendingCancellations == {} && s.issued == 1 && s.fundingIndex == 0 && s.orders == map[] && Holding(s.account, 2.0)
    ensures s' == AcceptOrders(s, CLOSING.submitOrders, 2 * MINUTE_MS, TERMS)
    ensures !s'.failed && s'.pendingCancellations == {} && s'.issued == 3 && s'.fundingIndex == 0 && s'.account == s.account
    ensures s'.orders == map[2 := EXIT, 3 := STOP]
  {
    assert Aligned(1.0, 1.0) && Aligned(90.0, 1.0);
    assert Group(s.orders, "exit") == {};
    var o2 := Accepts(s, MARKET_LEG, 2 * MINUTE_MS);
    var s1 := AcceptOrder(s, MARKET_LEG, 2 * MINUTE_MS, TERMS);
    assert Group(s1.orders, "exit") == {2};
    var o3 := Accepts(s1, STOP_LEG, 2 * MINUTE_MS);
    s' := AcceptOrder(s1, STOP_LEG, 2 * MINUTE_MS, TERMS);
    var intents := CLOSING.submitOrders;
    assert intents[..1] == [MARKET_LEG] && intents[..1][..0] == [];
    assert AcceptOrders(s, intents[..1], 2 * MINUTE_MS, TERMS) == s1;
  }

  /** Third bar, at the open: the market leg sells one contract, and its sibling stays. */
  lemma {:induction false} MarketLegFills(s: State) returns (s': State)
    requires !s.failed && s.pendingCancellations == {} && s.issued == 3 && s.orders == map[2 := EXIT, 3 := STOP] && Holding(s.account, 2.0)
    ensures s' == ActivateOrders(s, FALLING, TERMS)
    ensures !s'.failed && s'.pendingCancellations == {} && s'.issued == 3 && s'.fundingIndex == s.fundingIndex
    ensures s'.orders == map[3 := STOP.(open := true)] && Holding(s'.account, 1.0)
    ensures |s'.log| > 0 && s'.log[|s'.log| - 1].Filled?
    ensures var e := s'.log[|s'.log| - 1]; e.id == 2 && e.order.group == GROUP && e.issued == 3
  {
    var b := FALLING;
    assert ActivateUpTo(s, b, 0) == s && ActivateUpTo(s, b, 1) == s;
    var s2 := ActivateOne(s, 2, b);
    assert ActivateUpTo(s, b, 2) == s2;
    var s3 := ActivateOne(s2, 3, b);
    assert ActivateUpTo(s, b, 3) == s3;
    assert PendingMarket(s.orders) == {2};
    assert TradeAtOpenUpTo(s3, {2}, b, 0, TERMS) == s3 && TradeAtOpenUpTo(s3, {2}, b, 1, TERMS) == s3;
    s' := Execute(s3, 2, MarketCandidate(s3.orders[2], 100.0, TERMS), b.openTimeMs, b.openTimeMs, TERMS);
    assert s'.orders == map[3 := STOP.(open := true)];
    assert TradeAtOpenUpTo(s3, {2}, b, 2, TERMS) == s';
    assert TradeAtOpenUpTo(s3, {2}, b, 3, TERMS) == s';
  }

  /** Third bar, inside: the bar falls through the stop, and the second leg fills too. */
  lemma {:induction false} StopLegFills(s: State) returns (s': State)
    requires !s.failed && s.issued == 3 && s.orders == map[3 := STOP.(open := true)] && Holding(s.account, 1.0)
    ensures s' == ProcessIntrabar(s, FALLING, TERMS)
    ensures !s'.failed && s.log < s'.log && s'.log[|s.log|].Filled? && s'.log[|s.log|].id == 3
    ensures s'.log[|s.log|].order.group == GROUP
  {
    var b := FALLING;
    var stop := STOP.(open := true);
    var c := IntrabarCandidate(stop, b, TERMS);
    assert c == Some(Candidate(90.0, 90.0, TAKER, 0.0));
    assert Eligible(s.orders, 3, b, TERMS) && Selected(s, 3, b, TERMS);
    assert SelectedOrders(s, b, TERMS) == {3};
    assert TradeIntrabarUpTo(s, {3}, b, 0, TERMS) == s && TradeIntrabarUpTo(s, {3}, b, 1, TERMS) == s;
    assert TradeIntrabarUpTo(s, {3}, b, 2, TERMS) == s;
    var s1 := Execute(s, 3, c.value, b.openTimeMs, b.openTimeMs + MINUTE_MS, TERMS);
    assert s1.orders == map[];
    s' := CancelGroupUpTo(s1, "exit", 3, b.openTimeMs + MINUTE_MS);
    assert CancelGroupUpTo(s1, "exit", 0, b.openTimeMs + MINUTE_MS) == s1;
    assert CancelGroupUpTo(s1, "exit", 1, b.openTimeMs + MINUTE_MS) == s1;
    assert CancelGroupUpTo(s1, "exit", 2, b.openTimeMs + MINUTE_MS) == s1;
    assert TradeIntrabar(s, 3, b, TERMS) == s';
  }

  /** Both legs of one group, active together, fill. */
  lemma {:induction false} BothLegsFill()
    ensures TermsValid(TERMS) && Contiguous(BARS, 0) && |ACTIONS| == |BARS|
    ensures var log := Replay(1000.0, BARS, ACTIONS, TERMS).log;
            exists i, j :: 0 <= i < j < |log| && log[i].Filled? && log[j].Filled? && log[i].id != log[j].id
                           && log[i].order.group == log[j].order.group == GROUP && log[j].id <= log[i].issued
  {
    assert BARS[..2] == [Quiet(0), Quiet(1)] && BARS[..2][..1] == [Quiet(0)] && BARS[..2][..1][..0] == [];
    assert ACTIONS[..2] == [OPENING, CLOSING] && ACTIONS[..2][..1] == [OPENING];
    var s1 := FirstBar();
    assert Replay(1000.0, [Quiet(0)], [OPENING], TERMS) == s1;
    var s2 := SecondBar(s1);
    assert Replay(1000.0, [Quiet(0), Quiet(1)], [OPENING, CLOSING], TERMS) == s2;
    assert Replay(1000.0, BARS, ACTIONS, TERMS) == ProcessBar(s2, FALLING, NOTHING, TERMS);
    ThirdBar(s2);
  }

  lemma {:induction false} ThirdBar(s: State)
    requires !s.failed && s.pendingCancellations == {} && s.issued == 3 && s.fundingIndex == 0
    requires s.orders == map[2 := EXIT, 3 := STOP] && Holding(s.account, 2.0)
    ensures var log := ProcessBar(s, FALLING, NOTHING, TERMS).log;
            exists i, j :: 0 <= i < j < |log| && log[i].Filled? && log[j].Filled? && log[i].id != log[j].id
                           && log[i].order.group == log[j].order.group == GROUP && log[j].id <= log[i].issued
  {
    assert CancelUpTo(s, {}, 0, FALLING.openTimeMs) == s && CancelUpTo(s, {}, 1, FALLING.openTimeMs) == s;
    assert CancelUpTo(s, {}, 2, FALLING.openTimeMs) == s && CancelUpTo(s, {}, 3, FALLING.openTimeMs) == s;
    assert ApplyPendingCancellations(s, FALLING.openTimeMs) == s;
    var s1 := MarketLegFills(s);
    var s2 := StopLegFills(s1);
    hide ActivateOrders, ApplyPendingCancellations, ProcessIntrabar, CancelUpTo;
    var s3 := MarkAccount(s2, FALLING);
    var s4 := ApplyFundingAt(s3, 3 * MINUTE_MS, TERMS);
    assert s4 == s3;
    assert RequestCancellations(s4, [], 3 * MINUTE_MS) == s4 && AcceptOrders(s4, [], 3 * MINUTE_MS, TERMS) == s4;
    var s' := ProcessBar(s, FALLING, NOTHING, TERMS);
    assert s' == s4;
    var i, j := |s1.log| - 1, |s1.log|;
    assert s'.log[i] == s1.log[i] && s'.log[j] == s2.log[j];
  }
}
