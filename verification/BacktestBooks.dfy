/** Whole runs, end to end: the account of a run is the plain cash flow of the run's own events, each at the price its bar
    gives it, and every active order obeys the instrument. */
module BacktestBooks {
  import opened Common
  import opened Ledger
  import opened BacktestEngine
  import opened BarExecution

  /** The bars of a run, by opening time. */
  type Bars = int -> Bar

  function FundingCount(log: seq<Event>): nat {
    if log == [] then 0 else FundingCount(log[..|log| - 1]) + if log[|log| - 1].FundingApplied? then 1 else 0
  }

  /** What an event posts: a fill as its order is booked on its bar, the close of the bar that ends then, or the next of the
      funding events. */
  function Postings(e: Event, funded: nat, at: Bars, t: Terms): Journal {
    match e
    case Filled(_, _, o, barOpenMs, _, _, _) => [FillEntry(Booked(o, at(barOpenMs), t))]
    case AccountMarked(timeMs) => [MarkEntry(at(timeMs - MINUTE_MS).close)]
    case FundingApplied(_) =>
      if funded < |t.funding| then [FundingEntry(t.funding[funded].rate, t.funding[funded].referencePrice)] else []
    case _ => []
  }

  function JournalOf(log: seq<Event>, at: Bars, t: Terms): Journal {
    if log == [] then []
    else JournalOf(log[..|log| - 1], at, t) + Postings(log[|log| - 1], FundingCount(log[..|log| - 1]), at, t)
  }

  /** Account and events agree. */
  ghost predicate Agree(a: Account, fundingIndex: nat, log: seq<Event>, initialEquity: real, at: Bars, t: Terms) {
    && Refines(a, JournalOf(log, at, t)) && a.initialEquity == initialEquity && a.multiplier == t.multiplier
    && fundingIndex == FundingCount(log)
  }

  /** The instrument's rules for a single order. */
  predicate Obeys(o: Order, t: Terms)
    requires TermsValid(t)
  {
    && o.quantity > 0.0 && o.quantity >= t.minQuantity && o.quantity >= t.minTradeSize
    && (o.quantity / t.quantityIncrement).Floor as real * t.quantityIncrement == o.quantity
    && (o.kind == POST_ONLY_LIMIT <==> o.limitPrice.Some?) && (o.kind == STOP_MARKET <==> o.stopPrice.Some?)
    && (o.kind != MARKET ==> Level(o) > 0.0 && (Level(o) / t.priceIncrement).Floor as real * t.priceIncrement == Level(o))
    && (o.kind == POST_ONLY_LIMIT ==> o.quantity * Level(o) * t.multiplier >= t.minNotional)
    && (o.group.Some? ==> o.reduceOnly)
  }

  ghost predicate Kept(s: State, initialEquity: real, at: Bars, t: Terms)
    requires TermsValid(t)
  {
    Agree(s.account, s.fundingIndex, s.log, initialEquity, at, t) && forall id <- s.orders :: Obeys(s.orders[id], t)
  }

  // -------------------------------------------------------------- one event

  predicate Quiet(e: Event) {
    !e.Filled? && !e.AccountMarked? && !e.FundingApplied?
  }

  lemma {:induction false} OneMoreEvent(log: seq<Event>, e: Event, at: Bars, t: Terms)
    ensures JournalOf(log + [e], at, t) == JournalOf(log, at, t) + Postings(e, FundingCount(log), at, t)
    ensures FundingCount(log + [e]) == FundingCount(log) + if e.FundingApplied? then 1 else 0
  {
    assert (log + [e])[..|log|] == log;
  }

  lemma {:induction false} QuietAgree(a: Account, fundingIndex: nat, log: seq<Event>, e: Event, initialEquity: real, at: Bars, t: Terms)
    requires Agree(a, fundingIndex, log, initialEquity, at, t) && Quiet(e)
    ensures Agree(a, fundingIndex, log + [e], initialEquity, at, t)
  {
    OneMoreEvent(log, e, at, t);
    hide Refines, JournalOf;
    assert JournalOf(log, at, t) + [] == JournalOf(log, at, t);
  }

  lemma {:induction false} PostingAgrees(a: Account, fundingIndex: nat, log: seq<Event>, e: Event, entry: JournalEntry, initialEquity: real,
                                         at: Bars, t: Terms)
    requires Agree(a, fundingIndex, log, initialEquity, at, t) && EntryAcceptable(entry) && a.quantity >= 0.0
    requires Postings(e, fundingIndex, at, t) == [entry]
    ensures Agree(Posted(a, entry), if e.FundingApplied? then fundingIndex + 1 else fundingIndex, log + [e], initialEquity, at, t)
  {
    hide Refines, JournalOf, Posted, EntryAcceptable;
    OneMoreEvent(log, e, at, t);
    PostingRefines(a, JournalOf(log, at, t), entry);
    PostingKeepsTerms(a, entry);
  }

  lemma {:induction false} AgreeingIsSound(a: Account, fundingIndex: nat, log: seq<Event>, initialEquity: real, at: Bars, t: Terms)
    requires Agree(a, fundingIndex, log, initialEquity, at, t)
    ensures a.quantity >= 0.0
  {
  }

  // ------------------------------------------------------------- one bar's phases

  lemma {:induction false} TradesAgree(s: State, news: seq<Event>, b: Bar, t: Terms, timeMs: int, chosen: set<nat>, initialEquity: real, at: Bars)
    requires Agree(s.account, s.fundingIndex, s.log, initialEquity, at, t) && AllExplained(s, news, b, t, timeMs, chosen)
    requires at(b.openTimeMs) == b
    ensures Agree(After(s.account, news), s.fundingIndex, s.log + news, initialEquity, at, t)
  {
    hide Agree, Explained, AllExplained;
    if news == [] {
      NoNews(s.log);
    } else {
      var front, e := news[..|news| - 1], news[|news| - 1];
      ExplainedFront(s, news, b, t, timeMs, chosen);
      TradesAgree(s, front, b, t, timeMs, chosen, initialEquity, at);
      LastNews(s.log, news);
      ExplainedAgrees(s, front, e, b, t, timeMs, chosen, initialEquity, at);
    }
  }

  lemma {:induction false} NoNews(log: seq<Event>)
    ensures log + [] == log
  {
  }

  lemma {:induction false} LastNews(log: seq<Event>, news: seq<Event>)
    requires news != []
    ensures var front, e := news[..|news| - 1], news[|news| - 1];
            news == front + [e] && log + news == log + front + [e]
  {
  }

  lemma {:induction false} ExplainedAgrees(s: State, front: seq<Event>, e: Event, b: Bar, t: Terms, timeMs: int, chosen: set<nat>,
                                           initialEquity: real, at: Bars)
    requires Explained(s, front, e, b, t, timeMs, chosen) && at(b.openTimeMs) == b
    requires Agree(After(s.account, front), s.fundingIndex, s.log + front, initialEquity, at, t)
    ensures Agree(After(s.account, front + [e]), s.fundingIndex, s.log + front + [e], initialEquity, at, t)
  {
    hide Agree, Booked, Ledger.Filled, Fillable, FillAcceptable, After, Executed, Dropped;
    LaterNews(front, e);
    var a := After(s.account, front);
    if e.Filled? {
      PostingAgrees(a, s.fundingIndex, s.log + front, e, FillEntry(Booked(e.order, b, t)), initialEquity, at, t);
    } else {
      QuietAgree(a, s.fundingIndex, s.log + front, e, initialEquity, at, t);
    }
  }

  lemma {:induction false} ExplainedFront(s: State, news: seq<Event>, b: Bar, t: Terms, timeMs: int, chosen: set<nat>)
    requires AllExplained(s, news, b, t, timeMs, chosen) && news != []
    ensures var front := news[..|news| - 1];
            AllExplained(s, front, b, t, timeMs, chosen) && Explained(s, front, news[|news| - 1], b, t, timeMs, chosen)
  {
    hide Explained;
    var front := news[..|news| - 1];
    forall k | 0 <= k < |front| ensures Explained(s, front[..k], front[k], b, t, timeMs, chosen) {
      assert front[..k] == news[..k];
    }
  }

  lemma {:induction false} TradedKept(s: State, s': State, news: seq<Event>, b: Bar, t: Terms, timeMs: int, chosen: set<nat>, n: nat,
                                      initialEquity: real, at: Bars)
    requires TermsValid(t) && Kept(s, initialEquity, at, t) && Traded(s, s', news, b, t, timeMs, chosen, n) && at(b.openTimeMs) == b
    ensures Kept(s', initialEquity, at, t)
  {
    hide Agree, Obeys, AllExplained, Executed, Dropped, InOrder, After;
    TradesAgree(s, news, b, t, timeMs, chosen, initialEquity, at);
  }

  lemma {:induction false} QuietNewsAgree(a: Account, fundingIndex: nat, log: seq<Event>, news: seq<Event>, initialEquity: real, at: Bars, t: Terms)
    requires Agree(a, fundingIndex, log, initialEquity, at, t) && forall e <- news :: Quiet(e)
    ensures Agree(a, fundingIndex, log + news, initialEquity, at, t)
  {
    hide Agree, Quiet;
    if news == [] {
      assert log + news == log;
    } else {
      var front, e := news[..|news| - 1], news[|news| - 1];
      assert news == front + [e];
      QuietNewsAgree(a, fundingIndex, log, front, initialEquity, at, t);
      assert log + news == log + front + [e];
      QuietAgree(a, fundingIndex, log + front, e, initialEquity, at, t);
    }
  }

  /** Same account, quieter book. */
  lemma {:induction false} QuietKept(s: State, s': State, news: seq<Event>, initialEquity: real, at: Bars, t: Terms)
    requires TermsValid(t) && Kept(s, initialEquity, at, t) && s'.account == s.account && s'.fundingIndex == s.fundingIndex
    requires s'.log == s.log + news && forall e <- news :: Quiet(e)
    requires forall id <- s'.orders :: (id in s.orders && s'.orders[id] == s.orders[id].(open := s'.orders[id].open)) || Obeys(s'.orders[id], t)
    ensures Kept(s', initialEquity, at, t)
  {
    hide Agree, Obeys;
    QuietNewsAgree(s.account, s.fundingIndex, s.log, news, initialEquity, at, t);
    forall id | id in s'.orders ensures Obeys(s'.orders[id], t) {
      if id in s.orders {
        OpenOrClosed(s.orders[id], s'.orders[id].open, t);
      }
    }
  }

  lemma {:induction false} OpenOrClosed(o: Order, isOpen: bool, t: Terms)
    requires TermsValid(t) && Obeys(o, t)
    ensures Obeys(o.(open := isOpen), t)
  {
  }

  lemma {:induction false} CancellingKept(s: State, timeMs: int, initialEquity: real, at: Bars, t: Terms)
    requires TermsValid(t) && Kept(s, initialEquity, at, t)
    ensures Kept(ApplyPendingCancellations(s, timeMs), initialEquity, at, t)
  {
    hide Kept, ApplyPendingCancellations, Dropped;
    var news := CancellationsAreExact(s, timeMs);
    QuietKept(s, ApplyPendingCancellations(s, timeMs), news, initialEquity, at, t);
  }

  lemma {:induction false} OpeningKept(s: State, b: Bar, t: Terms, initialEquity: real, at: Bars)
    requires TermsValid(t) && Kept(s, initialEquity, at, t) && !s.failed && at(b.openTimeMs) == b
    ensures Kept(ActivateOrders(s, b, t), initialEquity, at, t)
  {
    hide Kept, ActivateOrders, Traded, Announced, Marketable;
    var atOpen, announcements, chosen, news := OpeningIsExact(s, b, t);
    QuietKept(s, atOpen, announcements, initialEquity, at, t);
    TradedKept(atOpen, ActivateOrders(s, b, t), news, b, t, b.openTimeMs, chosen, s.issued, initialEquity, at);
  }

  lemma {:induction false} FailingKept(s: State, initialEquity: real, at: Bars, t: Terms)
    requires TermsValid(t) && Kept(s, initialEquity, at, t)
    ensures Kept(s.(failed := true), initialEquity, at, t)
  {
    hide Agree, Obeys;
  }

  lemma {:induction false} IntrabarKept(s: State, b: Bar, t: Terms, initialEquity: real, at: Bars)
    requires TermsValid(t) && Kept(s, initialEquity, at, t) && at(b.openTimeMs) == b
    ensures Kept(ProcessIntrabar(s, b, t), initialEquity, at, t)
  {
    hide Kept, Traded, GroupsClosed, Reached, Booked, Chosen;
    FailingKept(s, initialEquity, at, t);
    if s.failed {
    } else {
      var chosen, news := IntrabarIsExact(s, b, t);
      hide ProcessIntrabar;
      if ProcessIntrabar(s, b, t) != s.(failed := true) {
        TradedKept(s, ProcessIntrabar(s, b, t), news, b, t, b.openTimeMs + MINUTE_MS, chosen, s.issued, initialEquity, at);
      }
    }
  }

  lemma {:induction false} MarkingKept(s: State, b: Bar, t: Terms, initialEquity: real, at: Bars)
    requires TermsValid(t) && Kept(s, initialEquity, at, t) && at(b.openTimeMs) == b
    ensures Kept(MarkAccount(s, b), initialEquity, at, t)
  {
    hide Agree, Obeys, Marked;
    if !s.failed && b.close > 0.0 {
      var e := AccountMarked(b.openTimeMs + MINUTE_MS);
      AgreeingIsSound(s.account, s.fundingIndex, s.log, initialEquity, at, t);
      PostingAgrees(s.account, s.fundingIndex, s.log, e, MarkEntry(b.close), initialEquity, at, t);
    }
  }

  lemma {:induction false} FundingKept(s: State, timeMs: int, t: Terms, initialEquity: real, at: Bars)
    requires TermsValid(t) && Kept(s, initialEquity, at, t)
    ensures Kept(ApplyFundingAt(s, timeMs, t), initialEquity, at, t)
  {
    hide Agree, Obeys, Funded;
    if !s.failed && s.fundingIndex < |t.funding| && t.funding[s.fundingIndex].fundingTimeMs == timeMs {
      var f := t.funding[s.fundingIndex];
      if f.referencePrice > 0.0 {
        AgreeingIsSound(s.account, s.fundingIndex, s.log, initialEquity, at, t);
        PostingAgrees(s.account, s.fundingIndex, s.log, FundingApplied(timeMs), FundingEntry(f.rate, f.referencePrice), initialEquity, at, t);
      }
    }
  }

  lemma {:induction false} RequestsKept(s: State, ids: seq<nat>, timeMs: int, t: Terms, initialEquity: real, at: Bars)
    requires TermsValid(t) && Kept(s, initialEquity, at, t)
    ensures Kept(RequestCancellations(s, ids, timeMs), initialEquity, at, t)
  {
    hide Agree, Obeys;
    if ids != [] {
      RequestsKept(s, ids[..|ids| - 1], timeMs, t, initialEquity, at);
      var s1 := RequestCancellations(s, ids[..|ids| - 1], timeMs);
      QuietAgree(s1.account, s1.fundingIndex, s1.log, CancellationAccepted(ids[|ids| - 1], timeMs), initialEquity, at, t);
    }
  }

  lemma {:induction false} AcceptedObeys(i: Intent, a: Account, t: Terms, id: nat, timeMs: int)
    requires TermsValid(t) && IntentAcceptable(i, a, t)
    ensures Obeys(Order(id, i.kind, i.side, i.quantity, i.limitPrice, i.stopPrice, i.reduceOnly, i.group, timeMs, false), t)
  {
  }

  lemma {:induction false} AcceptingKept(s: State, i: Intent, timeMs: int, t: Terms, initialEquity: real, at: Bars)
    requires TermsValid(t) && Kept(s, initialEquity, at, t)
    ensures Kept(AcceptOrder(s, i, timeMs, t), initialEquity, at, t)
  {
    hide Agree, Obeys, IntentAcceptable, NumericFailure, TermsValid;
    QuietAgree(s.account, s.fundingIndex, s.log, Rejected(s.issued + 1, timeMs), initialEquity, at, t);
    QuietAgree(s.account, s.fundingIndex, s.log, Accepted(s.issued + 1, timeMs), initialEquity, at, t);
    if IntentAcceptable(i, s.account, t) {
      AcceptedObeys(i, s.account, t, s.issued + 1, timeMs);
    }
  }

  lemma {:induction false} AcceptancesKept(s: State, intents: seq<Intent>, timeMs: int, t: Terms, initialEquity: real, at: Bars)
    requires TermsValid(t) && Kept(s, initialEquity, at, t)
    ensures Kept(AcceptOrders(s, intents, timeMs, t), initialEquity, at, t)
  {
    hide Kept, AcceptOrder, TermsValid;
    if intents != [] {
      AcceptancesKept(s, intents[..|intents| - 1], timeMs, t, initialEquity, at);
      AcceptingKept(AcceptOrders(s, intents[..|intents| - 1], timeMs, t), intents[|intents| - 1], timeMs, t, initialEquity, at);
    }
  }

  lemma {:induction false} BarKept(s: State, b: Bar, actions: Actions, t: Terms, initialEquity: real, at: Bars)
    requires TermsValid(t) && Kept(s, initialEquity, at, t) && at(b.openTimeMs) == b
    ensures Kept(ProcessBar(s, b, actions, t), initialEquity, at, t)
  {
    hide Kept, ApplyPendingCancellations, ActivateOrders, ProcessIntrabar, MarkAccount, ApplyFundingAt, RequestCancellations, AcceptOrders, TermsValid;
    if !s.failed {
      var close := b.openTimeMs + MINUTE_MS;
      CancellingKept(s, b.openTimeMs, initialEquity, at, t);
      var s0 := ApplyPendingCancellations(s, b.openTimeMs);
      StillRunning(s, b.openTimeMs);
      OpeningKept(s0, b, t, initialEquity, at);
      var s1 := ActivateOrders(s0, b, t);
      IntrabarKept(s1, b, t, initialEquity, at);
      MarkingKept(ProcessIntrabar(s1, b, t), b, t, initialEquity, at);
      var s2 := MarkAccount(ProcessIntrabar(s1, b, t), b);
      FundingKept(s2, close, t, initialEquity, at);
      var s3 := ApplyFundingAt(s2, close, t);
      RequestsKept(s3, actions.cancelOrderIds, close, t, initialEquity, at);
      AcceptancesKept(RequestCancellations(s3, actions.cancelOrderIds, close), actions.submitOrders, close, t, initialEquity, at);
    }
  }

  lemma {:induction false} StillRunning(s: State, timeMs: int)
    ensures ApplyPendingCancellations(s, timeMs).failed == s.failed
  {
    hide ApplyPendingCancellations, Dropped;
    var news := CancellationsAreExact(s, timeMs);
  }

  lemma {:induction false} NewRunKept(initialEquity: real, at: Bars, t: Terms)
    requires TermsValid(t)
    ensures Kept(NewRun(initialEquity, t), initialEquity, at, t)
  {
    OpenedRefines(initialEquity, t.multiplier);
    hide Refines;
  }

  lemma {:induction false} ReplayKept(initialEquity: real, bars: seq<Bar>, actions: seq<Actions>, t: Terms, at: Bars)
    requires TermsValid(t) && |actions| == |bars| && forall k :: 0 <= k < |bars| ==> at(bars[k].openTimeMs) == bars[k]
    ensures Kept(Replay(initialEquity, bars, actions, t), initialEquity, at, t)
  {
    hide Kept, ProcessBar, TermsValid;
    if bars == [] {
      NewRunKept(initialEquity, at, t);
    } else {
      var n := |bars| - 1;
      ReplayKept(initialEquity, bars[..n], actions[..n], t, at);
      BarKept(Replay(initialEquity, bars[..n], actions[..n], t), bars[n], actions[n], t, initialEquity, at);
    }
  }

  /** In every run, aborted or not, whatever the participant does: the account is what the run's own events say. The position
      is the sum of the signed fills, and once marked the equity is the initial equity plus what liquidating at the last close
      would leave of all cash paid, plus funding, less fees, with every fill at the price its order has on its bar. */
  lemma {:induction false} RunIsItsCashFlow(initialEquity: real, bars: seq<Bar>, actions: seq<Actions>, t: Terms, at: Bars)
    requires TermsValid(t) && |actions| == |bars| && forall k :: 0 <= k < |bars| ==> at(bars[k].openTimeMs) == bars[k]
    ensures var s := Replay(initialEquity, bars, actions, t);
            var j := JournalOf(s.log, at, t);
            && SignedPosition(s.account) == Position(j) && s.account.markPrice == LastMark(j) && Tallied(s.account, j)
            && (LastMark(j).Some? ==>
                  Equity(s.account) == initialEquity + Liquidation(t.multiplier, LastMark(j).value, Position(j), Cost(j))
                                       + FundingReceived(j, t.multiplier) - FeesPaid(j, t.multiplier))
  {
    hide Replay, Obeys, JournalOf, TermsValid, Position, Cost, FundingReceived, FeesPaid, LastMark, Liquidation, SignedPosition, Carrying,
      Unrealized, Tallied, Sound;
    ReplayKept(initialEquity, bars, actions, t, at);
    var s := Replay(initialEquity, bars, actions, t);
    BooksLiquidate(s.account, Cost(JournalOf(s.log, at, t)));
  }

  /** In every run every active order obeys the instrument: quantity and price on their grids and above their minima. */
  lemma {:induction false} ActiveOrdersObey(initialEquity: real, bars: seq<Bar>, actions: seq<Actions>, t: Terms, at: Bars)
    requires TermsValid(t) && |actions| == |bars| && forall k :: 0 <= k < |bars| ==> at(bars[k].openTimeMs) == bars[k]
    ensures var s := Replay(initialEquity, bars, actions, t); forall id <- s.orders :: Obeys(s.orders[id], t)
  {
    hide Replay, Obeys, Agree, TermsValid;
    ReplayKept(initialEquity, bars, actions, t, at);
  }
}
