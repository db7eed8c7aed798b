/** A whole bar, phase by phase, and what the participant's actions at its close come to: which cancellations and which orders
    are accepted, in terms of the intent, the instrument, the position and the book. */
module BarCycle {
  import opened Common
  import opened Ledger
  import opened BacktestEngine
  import opened BarExecution
  import opened BacktestBooks

  // ------------------------------------------------- requested cancellations

  predicate FirstMention(ids: seq<nat>, k: nat)
    requires k < |ids|
  {
    ids[k] !in ids[..k]
  }

  /** The requests `at[0]`, `at[1]` and so on, ascending, are accepted; they are the first mentions of orders that are in the
      book and not yet to be cancelled. */
  predicate Requested(s: State, s': State, ids: seq<nat>, at: seq<nat>, news: seq<Event>, timeMs: int) {
    && s' == s.(pendingCancellations := s'.pendingCancellations, log := s.log + news) && |news| == |at|
    && (forall i, j :: 0 <= i < j < |at| ==> at[i] < at[j])
    && (forall k :: 0 <= k < |at| ==> at[k] < |ids| && FirstMention(ids, at[k]) && news[k] == CancellationAccepted(ids[at[k]], timeMs)
                                      && ids[at[k]] in s.orders && ids[at[k]] !in s.pendingCancellations)
    && (forall id <- ids :: id in s.orders && id !in s.pendingCancellations ==> CancellationAccepted(id, timeMs) in news)
    && s'.pendingCancellations == s.pendingCancellations + set id <- ids | id in s.orders
  }

  lemma {:induction false} RequestsAreExact(s: State, ids: seq<nat>, timeMs: int) returns (at: seq<nat>, news: seq<Event>)
    ensures Requested(s, RequestCancellations(s, ids, timeMs), ids, at, news, timeMs)
  {
    if ids == [] {
      at, news := [], [];
      assert s.log + [] == s.log;
    } else {
      var front, id := ids[..|ids| - 1], ids[|ids| - 1];
      var at1, news1 := RequestsAreExact(s, front, timeMs);
      var s1 := RequestCancellations(s, front, timeMs);
      hide RequestCancellations;
      assert RequestCancellations(s, ids, timeMs) == OneRequest(s1, id, timeMs) by {
        RequestUnfolds(s, ids, timeMs);
      }
      if id !in s1.orders || id in s1.pendingCancellations {
        at, news := at1, news1;
        RefusedRequest(s, s1, front, id, at, news, timeMs);
      } else {
        at, news := at1 + [|front|], news1 + [CancellationAccepted(id, timeMs)];
        AcceptedRequest(s, s1, front, id, at1, news1, timeMs);
      }
      assert front + [id] == ids;
    }
  }

  function OneRequest(s: State, id: nat, timeMs: int): State {
    if id !in s.orders || id in s.pendingCancellations then s
    else s.(pendingCancellations := s.pendingCancellations + {id}, log := s.log + [CancellationAccepted(id, timeMs)])
  }

  lemma {:induction false} RequestUnfolds(s: State, ids: seq<nat>, timeMs: int)
    requires ids != []
    ensures RequestCancellations(s, ids, timeMs) == OneRequest(RequestCancellations(s, ids[..|ids| - 1], timeMs), ids[|ids| - 1], timeMs)
  {
  }

  lemma {:induction false} OneMoreMention(front: seq<nat>, id: nat)
    ensures forall k :: 0 <= k < |front| ==> (front + [id])[k] == front[k] && (FirstMention(front + [id], k) <==> FirstMention(front, k))
    ensures FirstMention(front + [id], |front|) <==> id !in front
    ensures forall x :: x in front + [id] <==> x in front || x == id
  {
    assert (front + [id])[..|front|] == front;
    forall k | 0 <= k < |front| ensures FirstMention(front + [id], k) <==> FirstMention(front, k) {
      assert (front + [id])[..k] == front[..k];
    }
  }

  lemma {:induction false} RefusedRequest(s: State, s1: State, front: seq<nat>, id: nat, at: seq<nat>, news: seq<Event>, timeMs: int)
    requires Requested(s, s1, front, at, news, timeMs) && (id !in s1.orders || id in s1.pendingCancellations)
    ensures Requested(s, s1, front + [id], at, news, timeMs)
  {
    OneMoreMention(front, id);
    hide FirstMention;
  }

  lemma {:induction false} AcceptedRequest(s: State, s1: State, front: seq<nat>, id: nat, at: seq<nat>, news: seq<Event>, timeMs: int)
    requires Requested(s, s1, front, at, news, timeMs) && id in s1.orders && id !in s1.pendingCancellations
    ensures Requested(s, OneRequest(s1, id, timeMs), front + [id], at + [|front|], news + [CancellationAccepted(id, timeMs)], timeMs)
  {
    OneMoreMention(front, id);
    hide FirstMention;
    var e := CancellationAccepted(id, timeMs);
    assert s.log + news + [e] == s.log + (news + [e]);
    assert (news + [e])[|news|] == e;
    forall x | x in news ensures x in news + [e] {
    }
  }

  // ------------------------------------------------------------- new orders

  /** A quantity and a price that the instrument knows. */
  predicate QuantityObeys(q: real, t: Terms)
    requires TermsValid(t)
  {
    q > 0.0 && q >= t.minQuantity && q >= t.minTradeSize && (q / t.quantityIncrement).Floor as real * t.quantityIncrement == q
  }

  predicate PriceObeys(p: real, t: Terms)
    requires TermsValid(t)
  {
    p > 0.0 && (p / t.priceIncrement).Floor as real * t.priceIncrement == p
  }

  /** An intent that may become an order: it has the prices of its kind and no others, obeys the instrument, closes no more than
      the position if it is reduce-only, and is reduce-only if it belongs to a group. */
  predicate Enterable(i: Intent, a: Account, t: Terms)
    requires TermsValid(t)
  {
    && i.pair == t.pair && i.numerals == READABLE && QuantityObeys(i.quantity, t)
    && (match i.kind
        case MARKET => i.limitPrice.None? && i.stopPrice.None?
        case POST_ONLY_LIMIT =>
          && i.stopPrice.None? && i.limitPrice.Some? && PriceObeys(i.limitPrice.value, t)
          && i.quantity * i.limitPrice.value * t.multiplier >= t.minNotional
        case STOP_MARKET => i.limitPrice.None? && i.stopPrice.Some? && PriceObeys(i.stopPrice.value, t))
    && (i.reduceOnly ==> ((a.side == LONG && i.side == SELL) || (a.side == SHORT && i.side == BUY)) && i.quantity <= a.quantity)
    && (i.group.Some? ==> i.reduceOnly)
  }

  /** Validation meets a text that is not a decimal, after everything it checks before has passed. */
  predicate Unreadable(i: Intent, t: Terms)
    requires TermsValid(t)
  {
    i.pair == t.pair && (i.numerals == QUANTITY_UNREADABLE || (i.numerals == PRICE_UNREADABLE && QuantityObeys(i.quantity, t)))
  }

  /** Two orders of the group are in the book. */
  predicate GroupIsFull(s: State, group: Option<string>) {
    group.Some? && exists x <- s.orders, y <- s.orders :: x != y && s.orders[x].group == group && s.orders[y].group == group
  }

  /** What becomes of one intent. */
  predicate Entered(s: State, i: Intent, s': State, timeMs: int, t: Terms)
    requires TermsValid(t)
  {
    var id := s.issued + 1;
    if |s.orders| < t.maxOpenOrders && Unreadable(i, t) then s' == s.(issued := id, failed := true)
    else if |s.orders| < t.maxOpenOrders && Enterable(i, s.account, t) && !GroupIsFull(s, i.group) then
      && s'.orders == s.orders[id := Order(id, i.kind, i.side, i.quantity, i.limitPrice, i.stopPrice, i.reduceOnly, i.group, timeMs, false)]
      && s' == s.(issued := id, orders := s'.orders, log := s.log + [Accepted(id, timeMs)])
    else s' == s.(issued := id, log := s.log + [Rejected(id, timeMs)])
  }

  lemma {:induction false} GroupIsFullExactly(s: State, group: string)
    ensures GroupIsFull(s, Some(group)) <==> |Group(s.orders, group)| >= 2
  {
    var g := Group(s.orders, group);
    if GroupIsFull(s, Some(group)) {
      var x, y :| x in s.orders && y in s.orders && x != y && s.orders[x].group == Some(group) && s.orders[y].group == Some(group);
      assert {x, y} <= g;
      SubsetSize({x, y}, g);
    } else if |g| >= 2 {
      TwoOf(g);
    }
  }

  lemma {:induction false} SubsetSize(a: set<nat>, b: set<nat>)
    requires a <= b
    ensures |a| <= |b|
  {
    assert b == a + (b - a);
  }

  lemma {:induction false} TwoOf(g: set<nat>)
    requires |g| >= 2
    ensures exists x <- g, y <- g :: x != y
  {
    var x :| x in g;
    var rest := g - {x};
    assert |rest| == |g| - 1;
    assert (forall z :: z !in rest) ==> rest <= {};
    var y :| y in rest;
  }

  lemma {:induction false} EnterableExactly(i: Intent, a: Account, t: Terms)
    requires TermsValid(t)
    ensures Enterable(i, a, t) <==> IntentAcceptable(i, a, t)
    ensures Unreadable(i, t) <==> NumericFailure(i, t)
  {
  }

  lemma {:induction false} EntryIsExact(s: State, i: Intent, timeMs: int, t: Terms)
    requires TermsValid(t)
    ensures Entered(s, i, AcceptOrder(s, i, timeMs, t), timeMs, t)
  {
    hide Enterable, Unreadable, IntentAcceptable, NumericFailure, TermsValid, GroupIsFull, Group;
    EnterableExactly(i, s.account, t);
    if i.group.Some? {
      GroupIsFullExactly(s, i.group.value);
    } else {
      NoGroupIsFull(s);
    }
  }

  lemma {:induction false} NoGroupIsFull(s: State)
    ensures !GroupIsFull(s, None)
  {
  }

  /** The intents are taken one by one until one of them aborts the run: `ss[k]` is the state that intent `k` finds. */
  predicate EnteredAll(ss: seq<State>, intents: seq<Intent>, timeMs: int, t: Terms)
    requires TermsValid(t)
  {
    && 1 <= |ss| <= |intents| + 1 && (|ss| == |intents| + 1 || ss[|ss| - 1].failed)
    && forall k :: 0 <= k < |ss| - 1 ==> !ss[k].failed && Entered(ss[k], intents[k], ss[k + 1], timeMs, t)
  }

  lemma {:induction false} EntriesAreExact(s: State, intents: seq<Intent>, timeMs: int, t: Terms) returns (ss: seq<State>)
    requires TermsValid(t)
    ensures EnteredAll(ss, intents, timeMs, t) && ss[0] == s && ss[|ss| - 1] == AcceptOrders(s, intents, timeMs, t)
  {
    hide AcceptOrder, Entered, TermsValid;
    if intents == [] {
      ss := [s];
    } else {
      ss := EntriesAreExact(s, intents[..|intents| - 1], timeMs, t);
      var last := ss[|ss| - 1];
      if !last.failed {
        EntryIsExact(last, intents[|intents| - 1], timeMs, t);
        ss := ss + [AcceptOrder(last, intents[|intents| - 1], timeMs, t)];
      }
    }
  }

  // -------------------------------------------------------------- the phases

  ghost predicate CancelPhase(s: State, s': State, b: Bar) {
    exists news :: CancelledFirst(s.(pendingCancellations := {}), s', news, s.issued, s.pendingCancellations, b.openTimeMs)
  }

  /** Pending orders open, with the events `announced`, and the market orders among them trade. */
  ghost predicate OpenedWith(s: State, s': State, b: Bar, t: Terms, atOpen: State, announced: seq<Event>, market: set<nat>, news: seq<Event>) {
    && OrdersOpened(s, atOpen, announced, b, s.issued) && Traded(atOpen, s', news, b, t, b.openTimeMs, market, s.issued)
    && forall id :: id in market <==> id in s.orders && !s.orders[id].open && s.orders[id].kind == MARKET
  }

  ghost predicate OpenPhase(s: State, s': State, b: Bar, t: Terms) {
    exists atOpen, announced, market, news :: OpenedWith(s, s', b, t, atOpen, announced, market, news)
  }

  /** A reached stop whose price, less its costs, is not positive aborts the run before anything trades. */
  ghost predicate Unpriceable(s: State, b: Bar, t: Terms) {
    exists id :: id in s.orders && s.orders[id].kind == STOP_MARKET && Reached(s.orders[id], b) && Booked(s.orders[id], b, t).fillPrice <= 0.0
  }

  ghost predicate TradePhase(s: State, s': State, b: Bar, t: Terms) {
    if s.failed then s' == s
    else if Unpriceable(s, b, t) then s' == s.(failed := true)
    else exists chosen, news :: TradedWith(s, s', b, t, chosen, news)
  }

  /** Exactly the chosen orders trade, and with a leg of a group its siblings are done. */
  ghost predicate TradedWith(s: State, s': State, b: Bar, t: Terms, chosen: set<nat>, news: seq<Event>) {
    && Traded(s, s', news, b, t, b.openTimeMs + MINUTE_MS, chosen, s.issued) && (!s'.failed ==> GroupsClosed(s', news))
    && forall id :: id in chosen <==> Chosen(s, b, id)
  }

  function EntryPrice(a: Account): real {
    if a.averageEntryPrice.Some? then a.averageEntryPrice.value else 0.0
  }

  /** The position is valued at the close. */
  predicate MarkPhase(s: State, s': State, b: Bar) {
    if s.failed then s' == s
    else if b.close <= 0.0 then s' == s.(failed := true)
    else
      var a := s.account;
      var gain := if a.side == LONG then (b.close - EntryPrice(a)) * a.quantity * a.multiplier
                  else if a.side == SHORT then (EntryPrice(a) - b.close) * a.quantity * a.multiplier else 0.0;
      s' == s.(account := a.(markPrice := Some(b.close), unrealizedGrossPnl := gain), log := s.log + [AccountMarked(b.openTimeMs + MINUTE_MS)])
  }

  /** The next funding event, if it is due now, is paid by a long and received by a short position. */
  predicate FundingPhase(s: State, s': State, timeMs: int, t: Terms) {
    if s.failed || s.fundingIndex >= |t.funding| || t.funding[s.fundingIndex].fundingTimeMs != timeMs then s' == s
    else
      var f, a := t.funding[s.fundingIndex], s.account;
      var due := a.quantity * f.referencePrice * a.multiplier * f.rate;
      if f.referencePrice <= 0.0 then s' == s.(failed := true)
      else
        && s'.account.fundingPnl == (if a.side == LONG then a.fundingPnl - due else if a.side == SHORT then a.fundingPnl + due else a.fundingPnl)
        && s' == s.(account := a.(fundingPnl := s'.account.fundingPnl), fundingIndex := s.fundingIndex + 1, log := s.log + [FundingApplied(timeMs)])
  }

  /** Within the evaluation window cancellations are accepted first and then new orders. */
  ghost predicate EvaluationPhase(s: State, s': State, actions: Actions, timeMs: int, t: Terms)
    requires TermsValid(t)
  {
    if s.failed || !(t.evaluationFromMs <= timeMs < t.evaluationToMs) then s' == s
    else exists at, news, ss :: EvaluatedWith(s, s', actions, timeMs, t, at, news, ss)
  }

  predicate EvaluatedWith(s: State, s': State, actions: Actions, timeMs: int, t: Terms, at: seq<nat>, news: seq<Event>, ss: seq<State>)
    requires TermsValid(t)
  {
    && EnteredAll(ss, actions.submitOrders, timeMs, t) && ss[|ss| - 1] == s'
    && Requested(s, ss[0], actions.cancelOrderIds, at, news, timeMs)
  }

  lemma {:induction false} OpeningFollows(s: State, b: Bar, t: Terms)
    requires !s.failed
    ensures OpenPhase(s, ActivateOrders(s, b, t), b, t)
  {
    hide OrdersOpened, Traded, ActivateOrders;
    var atOpen, announced, market, news := OpeningIsExact(s, b, t);
    assert OpenedWith(s, ActivateOrders(s, b, t), b, t, atOpen, announced, market, news);
  }

  lemma {:induction false} TradingFollows(s: State, b: Bar, t: Terms)
    ensures TradePhase(s, ProcessIntrabar(s, b, t), b, t)
  {
    hide Traded, GroupsClosed, Chosen, Reached, Booked;
    if !s.failed {
      hide ProcessIntrabar;
      var chosen, news := IntrabarIsExact(s, b, t);
      if !Unpriceable(s, b, t) {
        assert TradedWith(s, ProcessIntrabar(s, b, t), b, t, chosen, news);
      }
    }
  }

  lemma {:induction false} MarkingFollows(s: State, b: Bar)
    ensures MarkPhase(s, MarkAccount(s, b), b)
  {
    assert EntryPrice(s.account) == Entry(s.account);
    hide EntryPrice, Entry;
  }

  lemma {:induction false} FundingFollows(s: State, timeMs: int, t: Terms)
    ensures FundingPhase(s, ApplyFundingAt(s, timeMs, t), timeMs, t)
  {
    if !s.failed && s.fundingIndex < |t.funding| {
      FundingIsDue(s.account, t.funding[s.fundingIndex].rate, t.funding[s.fundingIndex].referencePrice);
    }
    hide Funding;
  }

  lemma {:induction false} FundingIsDue(a: Account, rate: real, price: real)
    ensures a.side == LONG ==> Funding(a, rate, price) == -(a.quantity * price * a.multiplier * rate)
    ensures a.side == SHORT ==> Funding(a, rate, price) == a.quantity * price * a.multiplier * rate
    ensures a.side == FLAT ==> Funding(a, rate, price) == 0.0
  {
    var value := a.quantity * price * a.multiplier;
    assert Funding(a, rate, price) == -Sign(a.side) * value * rate;
  }

  lemma {:induction false} EvaluationFollows(s: State, actions: Actions, timeMs: int, t: Terms)
    requires TermsValid(t)
    ensures EvaluationPhase(s, Evaluate(s, actions, timeMs, t), actions, timeMs, t)
  {
    hide EnteredAll, Requested, AcceptOrders, RequestCancellations, TermsValid;
    if !s.failed && t.evaluationFromMs <= timeMs < t.evaluationToMs {
      var at, news := RequestsAreExact(s, actions.cancelOrderIds, timeMs);
      var ss := EntriesAreExact(RequestCancellations(s, actions.cancelOrderIds, timeMs), actions.submitOrders, timeMs, t);
      assert EvaluatedWith(s, Evaluate(s, actions, timeMs, t), actions, timeMs, t, at, news, ss);
    }
  }

  /** A bar of any run, from any state that has not been aborted: cancellations of the last close, openings with the market
      orders, trades inside the bar, marking, funding, and the evaluation at its close, each exactly as its phase says. */
  lemma {:induction false} BarIsExact(s: State, b: Bar, actions: Actions, t: Terms)
    returns (cancelled: State, opening: State, traded: State, marked: State, funded: State)
    requires TermsValid(t) && !s.failed
    ensures CancelPhase(s, cancelled, b) && OpenPhase(cancelled, opening, b, t) && TradePhase(opening, traded, b, t)
    ensures MarkPhase(traded, marked, b) && FundingPhase(marked, funded, b.openTimeMs + MINUTE_MS, t)
    ensures EvaluationPhase(funded, ProcessBar(s, b, actions, t), actions, b.openTimeMs + MINUTE_MS, t)
  {
    hide CancelPhase, OpenPhase, TradePhase, MarkPhase, FundingPhase, EvaluationPhase, ActivateOrders, ProcessIntrabar, MarkAccount, ApplyFundingAt,
      Evaluate, TermsValid;
    cancelled := ApplyPendingCancellations(s, b.openTimeMs);
    CancellingFollows(s, b);
    hide ApplyPendingCancellations;
    opening := ActivateOrders(cancelled, b, t);
    OpeningFollows(cancelled, b, t);
    traded := ProcessIntrabar(opening, b, t);
    TradingFollows(opening, b, t);
    marked := MarkAccount(traded, b);
    MarkingFollows(traded, b);
    funded := ApplyFundingAt(marked, b.openTimeMs + MINUTE_MS, t);
    FundingFollows(marked, b.openTimeMs + MINUTE_MS, t);
    EvaluationFollows(funded, actions, b.openTimeMs + MINUTE_MS, t);
  }

  lemma {:induction false} CancellingFollows(s: State, b: Bar)
    ensures CancelPhase(s, ApplyPendingCancellations(s, b.openTimeMs), b)
    ensures ApplyPendingCancellations(s, b.openTimeMs).failed == s.failed
  {
    hide ApplyPendingCancellations, Dropped;
    var news := CancellationsAreExact(s, b.openTimeMs);
  }

  // ------------------------------------------------------------ when a run aborts

  /** A market order that is about to trade at a price that, less its costs, is not positive. */
  ghost predicate UnpriceableMarket(s: State, b: Bar, t: Terms) {
    exists id :: id in s.orders && 1 <= id <= s.issued && !s.orders[id].open && s.orders[id].kind == MARKET && Booked(s.orders[id], b, t).fillPrice <= 0.0
  }

  /** The orders obey the instrument and the position is no less than nothing. */
  predicate InShape(s: State, t: Terms)
    requires TermsValid(t)
  {
    s.account.quantity >= 0.0 && forall id <- s.orders :: Obeys(s.orders[id], t)
  }

  lemma {:induction false} KeptIsInShape(s: State, initialEquity: real, at: Bars, t: Terms)
    requires TermsValid(t) && Kept(s, initialEquity, at, t)
    ensures InShape(s, t)
  {
    hide Agree, Obeys;
    AgreeingIsSound(s.account, s.fundingIndex, s.log, initialEquity, at, t);
  }

  /** A priced execution does not abort. */
  lemma {:induction false} ExecutionRuns(s: State, id: nat, c: BacktestEngine.Candidate, barOpenMs: int, timeMs: int, t: Terms)
    requires TermsValid(t) && InShape(s, t) && !s.failed && id in s.orders && c.fillPrice > 0.0 && c.slippageRate >= 0.0
    ensures var s' := Execute(s, id, c, barOpenMs, timeMs, t);
            && !s'.failed && s'.account.quantity >= 0.0 && s'.issued == s.issued
            && forall x <- s'.orders :: x in s.orders && s'.orders[x] == s.orders[x]
  {
    var o := s.orders[id];
    assert o.quantity > 0.0;
    var f := FillOf(o, c, t);
    assert FillAcceptable(f);
    hide Obeys, Executable, FillOf, FillAcceptable, Ledger.Filled;
    if Executable(s, o, c, t) {
      PostingKeepsSign(s.account, FillEntry(f));
    }
  }

  lemma {:induction false} CandidateRates(o: Order, b: Bar, t: Terms)
    requires TermsValid(t)
    ensures MarketCandidate(o, b.open, t).slippageRate >= 0.0
    ensures IntrabarCandidate(o, b, t).Some? ==> IntrabarCandidate(o, b, t).value.slippageRate >= 0.0
    ensures IntrabarCandidate(o, b, t).Some? && Obeys(o, t) && o.kind == POST_ONLY_LIMIT ==> IntrabarCandidate(o, b, t).value.fillPrice > 0.0
    ensures IntrabarCandidate(o, b, t).Some? ==> o.kind != MARKET
  {
    hide Worsened;
  }

  /** Trading goes on: not aborted, in shape, and nothing about the remaining orders has changed. */
  predicate Continues(s: State, s': State, t: Terms)
    requires TermsValid(t)
  {
    && !s'.failed && s'.account.quantity >= 0.0 && s'.issued == s.issued
    && forall id <- s'.orders :: id in s.orders && s'.orders[id] == s.orders[id]
  }

  lemma {:induction false} ContinuesInShape(s: State, s': State, t: Terms)
    requires TermsValid(t) && InShape(s, t) && Continues(s, s', t)
    ensures InShape(s', t)
  {
    hide Obeys;
  }

  lemma {:induction false} ContinuesOn(s: State, s1: State, s2: State, t: Terms)
    requires TermsValid(t) && Continues(s, s1, t) && Continues(s1, s2, t)
    ensures Continues(s, s2, t)
  {
  }

  lemma {:induction false} GroupCancellationRuns(s: State, group: string, n: nat, timeMs: int, t: Terms)
    requires TermsValid(t) && !s.failed && s.account.quantity >= 0.0
    ensures Continues(s, CancelGroupUpTo(s, group, n, timeMs), t)
  {
    if n > 0 {
      GroupCancellationRuns(s, group, n - 1, timeMs, t);
    }
  }

  lemma {:induction false} TradeRuns(s: State, id: nat, b: Bar, t: Terms)
    requires TermsValid(t) && InShape(s, t) && !s.failed && id in s.orders
    requires !(s.orders[id].kind == STOP_MARKET && Reached(s.orders[id], b) && Booked(s.orders[id], b, t).fillPrice <= 0.0)
    ensures Continues(s, TradeIntrabar(s, id, b, t), t)
  {
    hide IntrabarCandidate, Reached, Booked, FillOf, Executable, Execute, CancelGroupUpTo, Obeys;
    var o := s.orders[id];
    CandidateIsBooked(o, b, t);
    CandidateRates(o, b, t);
    var c := IntrabarCandidate(o, b, t);
    if c.Some? {
      assert o.kind == POST_ONLY_LIMIT || o.kind == STOP_MARKET;
      ExecutionRuns(s, id, c.value, b.openTimeMs, b.openTimeMs + MINUTE_MS, t);
      var s1 := Execute(s, id, c.value, b.openTimeMs, b.openTimeMs + MINUTE_MS, t);
      assert Continues(s, s1, t);
      if o.group.Some? {
        GroupCancellationRuns(s1, o.group.value, s1.issued, b.openTimeMs + MINUTE_MS, t);
        ContinuesOn(s, s1, CancelGroupUpTo(s1, o.group.value, s1.issued, b.openTimeMs + MINUTE_MS), t);
      }
    }
  }

  lemma {:induction false} TradesRun(s: State, chosen: set<nat>, b: Bar, n: nat, t: Terms)
    requires TermsValid(t) && InShape(s, t) && !s.failed && !Unpriceable(s, b, t)
    ensures Continues(s, TradeIntrabarUpTo(s, chosen, b, n, t), t)
  {
    hide TradeIntrabar, Obeys, Reached, Booked, InShape, TermsValid;
    if n == 0 {
      assert InShape(s, t);
      NothingHappens(s, t);
    } else {
      TradesRun(s, chosen, b, n - 1, t);
      var s1 := TradeIntrabarUpTo(s, chosen, b, n - 1, t);
      if n in chosen && n in s1.orders {
        ContinuesInShape(s, s1, t);
        TradeRuns(s1, n, b, t);
        hide Continues;
        ContinuesOn(s, s1, TradeIntrabar(s1, n, b, t), t);
      }
    }
  }

  lemma {:induction false} NothingHappens(s: State, t: Terms)
    requires TermsValid(t) && InShape(s, t) && !s.failed
    ensures Continues(s, s, t)
  {
    hide Obeys;
  }

  lemma {:induction false} OpenTradesRun(s: State, chosen: set<nat>, b: Bar, n: nat, t: Terms)
    requires TermsValid(t) && InShape(s, t) && !s.failed
    requires forall id <- s.orders :: id in chosen && 1 <= id <= n ==> MarketCandidate(s.orders[id], b.open, t).fillPrice > 0.0
    ensures Continues(s, TradeAtOpenUpTo(s, chosen, b, n, t), t)
    ensures forall id <- s.orders :: id > n ==> id in TradeAtOpenUpTo(s, chosen, b, n, t).orders
  {
    hide Obeys, Execute, MarketCandidate, InShape, TermsValid;
    if n == 0 {
      NothingHappens(s, t);
    } else {
      OpenTradesRun(s, chosen, b, n - 1, t);
      var s1 := TradeAtOpenUpTo(s, chosen, b, n - 1, t);
      if n in chosen && n in s1.orders {
        OpenTradeRuns(s, s1, b, n, t);
      }
    }
  }

  lemma {:induction false} OpenTradeRuns(s: State, s1: State, b: Bar, n: nat, t: Terms)
    requires TermsValid(t) && InShape(s, t) && Continues(s, s1, t) && n in s1.orders && MarketCandidate(s.orders[n], b.open, t).fillPrice > 0.0
    ensures Continues(s, TradeAtOpen(s1, n, b, t), t)
    ensures forall id <- s1.orders :: id != n ==> id in TradeAtOpen(s1, n, b, t).orders
  {
    hide Obeys, MarketCandidate, TermsValid, Executable, FillOf, FillAcceptable, Ledger.Filled;
    ContinuesInShape(s, s1, t);
    CandidateRates(s1.orders[n], b, t);
    hide InShape;
    ExecutionRuns(s1, n, MarketCandidate(s1.orders[n], b.open, t), b.openTimeMs, b.openTimeMs, t);
  }

  /** An order that has no price aborts the phase when its turn comes, if nothing has before. */
  lemma {:induction false} AbortedByMarket(s: State, chosen: set<nat>, b: Bar, n: nat, id: nat, t: Terms)
    requires 1 <= id <= n && id in chosen && id in s.orders && MarketCandidate(s.orders[id], b.open, t).fillPrice <= 0.0
    ensures TradeAtOpenUpTo(s, chosen, b, n, t).failed
  {
    hide Execute, MarketCandidate;
    if n == id {
      LaterOrdersStay(s, chosen, b, n - 1, t);
    } else {
      AbortedByMarket(s, chosen, b, n - 1, id, t);
    }
  }

  lemma {:induction false} LaterOrdersStay(s: State, chosen: set<nat>, b: Bar, n: nat, t: Terms)
    ensures var s' := TradeAtOpenUpTo(s, chosen, b, n, t);
            forall id <- s.orders :: id > n ==> id in s'.orders && s'.orders[id] == s.orders[id]
  {
    if n > 0 {
      LaterOrdersStay(s, chosen, b, n - 1, t);
      hide Executable, FillOf, FillAcceptable, Ledger.Filled, MarketCandidate;
    }
  }

  lemma {:induction false} OpenedInShape(s: State, s': State, news: seq<Event>, b: Bar, t: Terms)
    requires TermsValid(t) && InShape(s, t) && OrdersOpened(s, s', news, b, s.issued)
    ensures InShape(s', t)
  {
    hide Announced, Marketable;
    forall id | id in s'.orders ensures Obeys(s'.orders[id], t) {
      OpenOrClosed(s.orders[id], s'.orders[id].open, t);
    }
  }

  /** Opening aborts exactly if a market order has no price. */
  lemma {:induction false} OpeningAbortsExactly(s: State, b: Bar, t: Terms)
    requires TermsValid(t) && InShape(s, t) && !s.failed
    ensures ActivateOrders(s, b, t).failed <==> UnpriceableMarket(s, b, t)
  {
    hide Obeys, Booked, MarketCandidate, TradeAtOpenUpTo, ActivateUpTo, Announced, Marketable, TermsValid;
    var atOpen := ActivateUpTo(s, b, s.issued);
    var chosen := PendingMarket(s.orders);
    var announced := OpeningUpTo(s, b, s.issued);
    OpenedInShape(s, atOpen, announced, b, t);
    hide InShape;
    forall id | id in s.orders && 1 <= id <= s.issued && id in chosen
      ensures id in atOpen.orders && MarketCandidate(atOpen.orders[id], b.open, t).fillPrice == Booked(s.orders[id], b, t).fillPrice {
      OpenPrice(s.orders[id], b, t);
    }
    if UnpriceableMarket(s, b, t) {
      var id :| id in s.orders && 1 <= id <= s.issued && !s.orders[id].open && s.orders[id].kind == MARKET && Booked(s.orders[id], b, t).fillPrice <= 0.0;
      AbortedByMarket(atOpen, chosen, b, s.issued, id, t);
    } else {
      OpenTradesRun(atOpen, chosen, b, s.issued, t);
    }
  }

  lemma {:induction false} OpenPrice(o: Order, b: Bar, t: Terms)
    requires o.kind == MARKET
    ensures !Marketable(o, b) && MarketCandidate(o.(open := true), b.open, t).fillPrice == Booked(o, b, t).fillPrice
  {
    CandidateIsBooked(o, b, t);
    hide Booked;
  }

  /** When a bar of a run aborts it: a market order that opens has no price, or a stop that the bar reaches has none. The other
      phases say themselves when they do: marking at a close that is not positive, funding at a price that is not, and an
      order whose numbers cannot be read. */
  lemma {:induction false} TradingAbortsExactly(initialEquity: real, bars: seq<Bar>, actions: seq<Actions>, t: Terms, at: Bars, b: Bar)
    requires TermsValid(t) && |actions| == |bars| && (forall k :: 0 <= k < |bars| ==> at(bars[k].openTimeMs) == bars[k]) && at(b.openTimeMs) == b
    requires !Replay(initialEquity, bars, actions, t).failed
    ensures var cancelled := ApplyPendingCancellations(Replay(initialEquity, bars, actions, t), b.openTimeMs);
            var opening := ActivateOrders(cancelled, b, t);
            && (opening.failed <==> UnpriceableMarket(cancelled, b, t))
            && (ProcessIntrabar(opening, b, t).failed <==> opening.failed || Unpriceable(opening, b, t))
  {
    hide Replay, Kept, InShape, ApplyPendingCancellations, ActivateOrders, UnpriceableMarket, TermsValid;
    ReplayKept(initialEquity, bars, actions, t, at);
    var s := Replay(initialEquity, bars, actions, t);
    CancellingKept(s, b.openTimeMs, initialEquity, at, t);
    StillRunning(s, b.openTimeMs);
    var cancelled := ApplyPendingCancellations(s, b.openTimeMs);
    KeptIsInShape(cancelled, initialEquity, at, t);
    OpeningAbortsExactly(cancelled, b, t);
    OpeningKept(cancelled, b, t, initialEquity, at);
    var opening := ActivateOrders(cancelled, b, t);
    KeptIsInShape(opening, initialEquity, at, t);
    IntrabarAbortsExactly(opening, b, t);
  }

  lemma {:induction false} IntrabarAbortsExactly(s: State, b: Bar, t: Terms)
    requires TermsValid(t) && InShape(s, t)
    ensures ProcessIntrabar(s, b, t).failed <==> s.failed || Unpriceable(s, b, t)
  {
    hide TradeIntrabarUpTo, Priceable, Reached, Booked, SelectedOrders, InShape, TermsValid;
    PriceableExactly(s, b, t);
    if !s.failed && !Unpriceable(s, b, t) {
      TradesRun(s, SelectedOrders(s, b, t), b, s.issued, t);
    }
  }

  // ------------------------------------------------- no new cancellations meanwhile

  lemma {:induction false} OpeningRequestsNothing(s: State, b: Bar, n: nat)
    ensures ActivateUpTo(s, b, n).pendingCancellations <= s.pendingCancellations
  {
    if n > 0 {
      OpeningRequestsNothing(s, b, n - 1);
    }
  }

  lemma {:induction false} ExecutionRequestsNothing(s: State, id: nat, c: BacktestEngine.Candidate, barOpenMs: int, timeMs: int, t: Terms)
    requires id in s.orders
    ensures Execute(s, id, c, barOpenMs, timeMs, t).pendingCancellations <= s.pendingCancellations
  {
    hide Executable, FillOf, FillAcceptable, Ledger.Filled;
  }

  lemma {:induction false} OpenTradesRequestNothing(s: State, chosen: set<nat>, b: Bar, n: nat, t: Terms)
    ensures TradeAtOpenUpTo(s, chosen, b, n, t).pendingCancellations <= s.pendingCancellations
  {
    if n > 0 {
      hide Execute, MarketCandidate;
      OpenTradesRequestNothing(s, chosen, b, n - 1, t);
      var s1 := TradeAtOpenUpTo(s, chosen, b, n - 1, t);
      if n in s1.orders {
        ExecutionRequestsNothing(s1, n, MarketCandidate(s1.orders[n], b.open, t), b.openTimeMs, b.openTimeMs, t);
      }
    }
  }

  lemma {:induction false} GroupRequestsNothing(s: State, group: string, n: nat, timeMs: int)
    ensures CancelGroupUpTo(s, group, n, timeMs).pendingCancellations <= s.pendingCancellations
  {
    if n > 0 {
      GroupRequestsNothing(s, group, n - 1, timeMs);
    }
  }

  lemma {:induction false} TradesRequestNothing(s: State, chosen: set<nat>, b: Bar, n: nat, t: Terms)
    ensures TradeIntrabarUpTo(s, chosen, b, n, t).pendingCancellations <= s.pendingCancellations
  {
    if n > 0 {
      hide TradeIntrabar;
      TradesRequestNothing(s, chosen, b, n - 1, t);
      var s1 := TradeIntrabarUpTo(s, chosen, b, n - 1, t);
      if n in s1.orders {
        TradeRequestsNothing(s1, n, b, t);
      }
    }
  }

  lemma {:induction false} TradeRequestsNothing(s: State, id: nat, b: Bar, t: Terms)
    requires id in s.orders
    ensures TradeIntrabar(s, id, b, t).pendingCancellations <= s.pendingCancellations
  {
    hide IntrabarCandidate, Execute, Executable, CancelGroupUpTo;
    var c := IntrabarCandidate(s.orders[id], b, t);
    if c.Some? {
      ExecutionRequestsNothing(s, id, c.value, b.openTimeMs, b.openTimeMs + MINUTE_MS, t);
      var s1 := Execute(s, id, c.value, b.openTimeMs, b.openTimeMs + MINUTE_MS, t);
      if s.orders[id].group.Some? {
        GroupRequestsNothing(s1, s.orders[id].group.value, s1.issued, b.openTimeMs + MINUTE_MS);
      }
    }
  }

  lemma {:induction false} CancellingClears(s: State, requested: set<nat>, n: nat, timeMs: int)
    ensures CancelUpTo(s, requested, n, timeMs).pendingCancellations <= s.pendingCancellations
  {
    if n > 0 {
      CancellingClears(s, requested, n - 1, timeMs);
    }
  }

  /** Only the evaluation at a close requests cancellations: none is pending while a bar trades. */
  lemma {:induction false} NothingPendingInBar(s: State, b: Bar, t: Terms)
    ensures var cancelled := ApplyPendingCancellations(s, b.openTimeMs);
            var opening := ActivateOrders(cancelled, b, t);
            && cancelled.pendingCancellations == {} && opening.pendingCancellations == {}
            && ProcessIntrabar(opening, b, t).pendingCancellations == {}
  {
    hide CancelUpTo, ActivateUpTo, TradeAtOpenUpTo, TradeIntrabarUpTo, Priceable, PendingMarket, SelectedOrders;
    CancellingClears(s.(pendingCancellations := {}), s.pendingCancellations, s.issued, b.openTimeMs);
    var cancelled := ApplyPendingCancellations(s, b.openTimeMs);
    OpeningRequestsNothing(cancelled, b, cancelled.issued);
    OpenTradesRequestNothing(ActivateUpTo(cancelled, b, cancelled.issued), PendingMarket(cancelled.orders), b, cancelled.issued, t);
    var opening := ActivateOrders(cancelled, b, t);
    TradesRequestNothing(opening, SelectedOrders(opening, b, t), b, opening.issued, t);
  }
}
