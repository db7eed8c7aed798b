/** Model of src/backtest/engine.ts and of the order checks in src/backtest/instrument.ts:
    the order state machine that a backtest runs over one-minute bars.

    Orders are known by their sequence number, from which the source builds their id, so
    visiting them in sequence order is visiting the numbers from 1 upwards. A state in which
    an exception has aborted the run is marked `failed` and never changes again. */
module BacktestEngine {
  import opened Common
  import opened Ledger

  datatype OrderType = MARKET | POST_ONLY_LIMIT | STOP_MARKET

  datatype Order = Order(id: nat, kind: OrderType, side: OrderSide, quantity: real, limitPrice: Option<real>, stopPrice: Option<real>,
                         reduceOnly: bool, group: Option<string>, submittedAtMs: int, open: bool)

  /** Whether the texts of an intent are decimals that the run can hold. */
  datatype Numerals = READABLE | QUANTITY_UNREADABLE | PRICE_UNREADABLE

  datatype Intent = Intent(pair: string, kind: OrderType, side: OrderSide, quantity: real, limitPrice: Option<real>,
                           stopPrice: Option<real>, reduceOnly: bool, group: Option<string>, numerals: Numerals)

  datatype Bar = Bar(openTimeMs: int, open: real, high: real, low: real, close: real)

  datatype FundingEvent = FundingEvent(fundingTimeMs: int, rate: real, referencePrice: real)

  /** Instrument, cost model and limits, as the run's manifest fixes them. Costs are rates, not basis points. */
  datatype Terms = Terms(pair: string, priceIncrement: real, quantityIncrement: real, minQuantity: real, minTradeSize: real,
                         minNotional: real, multiplier: real, halfSpread: real, marketSlippage: real, stopSlippage: real,
                         makerFee: real, takerFee: real, maxOpenOrders: nat, evaluationFromMs: int, evaluationToMs: int,
                         funding: seq<FundingEvent>)

  predicate TermsValid(t: Terms) {
    && t.priceIncrement > 0.0 && t.quantityIncrement > 0.0 && t.multiplier > 0.0
    && t.halfSpread >= 0.0 && t.marketSlippage >= 0.0 && t.stopSlippage >= 0.0 && t.makerFee >= 0.0 && t.takerFee >= 0.0
  }

  datatype Event =
    | Accepted(id: nat, timeMs: int)
    | CancellationAccepted(id: nat, timeMs: int)
    | Activated(id: nat, timeMs: int)
    | Rejected(id: nat, timeMs: int)
    | Cancelled(id: nat, timeMs: int)
    | Filled(id: nat, timeMs: int, order: Order, barOpenMs: int, issued: nat, before: Account, after: Account)
    | AccountMarked(timeMs: int)
    | FundingApplied(timeMs: int)

  datatype State = State(orders: map<nat, Order>, pendingCancellations: set<nat>, account: Account, issued: nat,
                         fundingIndex: nat, failed: bool, log: seq<Event>)

  function NewRun(initialEquity: real, terms: Terms): State {
    State(map[], {}, Opened(initialEquity, terms.multiplier), 0, 0, false, [])
  }

  function Logged(s: State, e: Event): State {
    s.(log := s.log + [e])
  }

  // ------------------------------------------------------- order primitives

  function Cancel(s: State, id: nat, timeMs: int): State {
    Logged(s.(orders := s.orders - {id}, pendingCancellations := s.pendingCancellations - {id}), Cancelled(id, timeMs))
  }

  function Reject(s: State, id: nat, timeMs: int): State {
    Logged(s.(orders := s.orders - {id}, pendingCancellations := s.pendingCancellations - {id}), Rejected(id, timeMs))
  }

  /** The price, reference and fee class at which an order would trade. */
  datatype Candidate = Candidate(rawReference: real, fillPrice: real, feeClass: FeeClass, slippageRate: real)

  function Worsened(side: OrderSide, reference: real, adjustment: real): real {
    if side == BUY then reference * (1.0 + adjustment) else reference * (1.0 - adjustment)
  }

  function MarketCandidate(o: Order, open: real, t: Terms): Candidate {
    Candidate(open, Worsened(o.side, open, t.halfSpread + t.marketSlippage), TAKER, t.marketSlippage)
  }

  /** What an open order would trade at inside the bar, if the bar reaches it. */
  function IntrabarCandidate(o: Order, b: Bar, t: Terms): Option<Candidate> {
    if !o.open then None
    else match o.kind
      case MARKET => None
      case POST_ONLY_LIMIT =>
        var limit := o.limitPrice.GetOr(0.0);
        if (if o.side == BUY then b.low < limit else b.high > limit) then Some(Candidate(limit, limit, MAKER, 0.0)) else None
      case STOP_MARKET =>
        var stop := o.stopPrice.GetOr(0.0);
        if !(if o.side == BUY then b.high >= stop else b.low <= stop) then None
        else
          var gapThrough := if o.side == BUY then b.open > stop else b.open < stop;
          var reference := if gapThrough then b.open else stop;
          Some(Candidate(reference, Worsened(o.side, reference, t.halfSpread + t.stopSlippage), TAKER, t.stopSlippage))
  }

  predicate Reduces(a: Account, side: OrderSide, quantity: real) {
    a.side != FLAT && a.side != Incoming(side) && quantity <= a.quantity
  }

  function FillOf(o: Order, c: Candidate, t: Terms): Fill {
    Fill(o.side, o.quantity, c.fillPrice, c.rawReference, c.feeClass, if c.feeClass == MAKER then t.makerFee else t.takerFee,
         if c.feeClass == MAKER then 0.0 else t.halfSpread, c.slippageRate)
  }

  predicate Executable(s: State, o: Order, c: Candidate, t: Terms) {
    && (o.reduceOnly ==> Reduces(s.account, o.side, o.quantity))
    && o.quantity * c.fillPrice * t.multiplier >= t.minNotional
  }

  /** Fill the order, or reject it because it has become invalid. A nonpositive price aborts the run. */
  function Execute(s: State, id: nat, c: Candidate, barOpenMs: int, timeMs: int, t: Terms): State
    requires id in s.orders
  {
    var o := s.orders[id];
    if !Executable(s, o, c, t) then Reject(s, id, timeMs)
    else if !FillAcceptable(FillOf(o, c, t)) || s.account.quantity < 0.0 then s.(failed := true)
    else
      var after := Ledger.Filled(s.account, FillOf(o, c, t));
      Logged(s.(orders := s.orders - {id}, account := after), Event.Filled(id, timeMs, o, barOpenMs, s.issued, s.account, after))
  }

  // -------------------------------------------------------- phases of a bar

  /** The pending cancellations among the first `n` orders take effect. */
  function CancelUpTo(s: State, requested: set<nat>, n: nat, timeMs: int): State {
    if n == 0 then s
    else
      var s1 := CancelUpTo(s, requested, n - 1, timeMs);
      if n in requested && n in s1.orders then Cancel(s1, n, timeMs) else s1
  }

  function ApplyPendingCancellations(s: State, timeMs: int): State {
    CancelUpTo(s.(pendingCancellations := {}), s.pendingCancellations, s.issued, timeMs)
  }

  predicate WouldTake(o: Order, open: real) {
    var limit := o.limitPrice.GetOr(0.0);
    o.kind == POST_ONLY_LIMIT && (if o.side == BUY then limit >= open else limit <= open)
  }

  function ActivateOne(s: State, id: nat, b: Bar): State
    requires id in s.orders
  {
    if WouldTake(s.orders[id], b.open) then Reject(s, id, b.openTimeMs)
    else Logged(s.(orders := s.orders[id := s.orders[id].(open := true)]), Activated(id, b.openTimeMs))
  }

  function ActivateUpTo(s: State, b: Bar, n: nat): State {
    if n == 0 then s
    else
      var s1 := ActivateUpTo(s, b, n - 1);
      if n in s1.orders && !s1.orders[n].open then ActivateOne(s1, n, b) else s1
  }

  function TradeAtOpen(s: State, id: nat, b: Bar, t: Terms): State
    requires id in s.orders
  {
    var c := MarketCandidate(s.orders[id], b.open, t);
    if c.fillPrice <= 0.0 then s.(failed := true) else Execute(s, id, c, b.openTimeMs, b.openTimeMs, t)
  }

  /** The market orders among the first `n` that have just been activated trade at the open. */
  function TradeAtOpenUpTo(s: State, activated: set<nat>, b: Bar, n: nat, t: Terms): State {
    if n == 0 then s
    else
      var s1 := TradeAtOpenUpTo(s, activated, b, n - 1, t);
      if s1.failed || n !in activated || n !in s1.orders then s1 else TradeAtOpen(s1, n, b, t)
  }

  function PendingMarket(orders: map<nat, Order>): set<nat> {
    set id <- orders | !orders[id].open && orders[id].kind == MARKET
  }

  function ActivateOrders(s: State, b: Bar, t: Terms): State {
    TradeAtOpenUpTo(ActivateUpTo(s, b, s.issued), PendingMarket(s.orders), b, s.issued, t)
  }

  predicate Eligible(orders: map<nat, Order>, id: nat, b: Bar, t: Terms) {
    id in orders && IntrabarCandidate(orders[id], b, t).Some?
  }

  /** A stop that would close the position at a loss. */
  predicate Adverse(o: Order, side: PositionSide) {
    o.kind == STOP_MARKET && ((side == LONG && o.side == SELL) || (side == SHORT && o.side == BUY))
  }

  predicate Rival(orders: map<nat, Order>, id: nat, other: nat, b: Bar, t: Terms)
    requires id in orders
  {
    Eligible(orders, other, b, t) && orders[other].group == orders[id].group
  }

  /** One candidate per OCO group: the first adverse stop, or else the first order the bar reaches. */
  predicate Selected(s: State, id: nat, b: Bar, t: Terms) {
    && Eligible(s.orders, id, b, t)
    && (s.orders[id].group.Some? ==>
          if Adverse(s.orders[id], s.account.side)
          then forall other <- s.orders :: Rival(s.orders, id, other, b, t) && Adverse(s.orders[other], s.account.side) ==> other >= id
          else forall other <- s.orders :: Rival(s.orders, id, other, b, t) ==> other >= id && !Adverse(s.orders[other], s.account.side))
  }

  /** Cancels the remaining legs of an OCO group among the first `n` orders. */
  function CancelGroupUpTo(s: State, group: string, n: nat, timeMs: int): State {
    if n == 0 then s
    else
      var s1 := CancelGroupUpTo(s, group, n - 1, timeMs);
      if n in s1.orders && s1.orders[n].group == Some(group) then Cancel(s1, n, timeMs) else s1
  }

  /** A selected order trades inside the bar; if it fills, its OCO siblings are cancelled. */
  function TradeIntrabar(s: State, id: nat, b: Bar, t: Terms): State
    requires id in s.orders
  {
    var o := s.orders[id];
    var c := IntrabarCandidate(o, b, t);
    if c.None? then s
    else
      var s1 := Execute(s, id, c.value, b.openTimeMs, b.openTimeMs + MINUTE_MS, t);
      if s1.failed || !Executable(s, o, c.value, t) || o.group.None? then s1
      else CancelGroupUpTo(s1, o.group.value, s1.issued, b.openTimeMs + MINUTE_MS)
  }

  function TradeIntrabarUpTo(s: State, selected: set<nat>, b: Bar, n: nat, t: Terms): State {
    if n == 0 then s
    else
      var s1 := TradeIntrabarUpTo(s, selected, b, n - 1, t);
      if s1.failed || n !in selected || n !in s1.orders then s1 else TradeIntrabar(s1, n, b, t)
  }

  function SelectedOrders(s: State, b: Bar, t: Terms): set<nat> {
    set id <- s.orders | Selected(s, id, b, t)
  }

  /** Pricing every reachable order may already abort the run. */
  predicate Priceable(s: State, b: Bar, t: Terms) {
    forall id <- s.orders :: Eligible(s.orders, id, b, t) ==>
      s.orders[id].kind != STOP_MARKET || IntrabarCandidate(s.orders[id], b, t).value.fillPrice > 0.0
  }

  function ProcessIntrabar(s: State, b: Bar, t: Terms): State {
    if s.failed then s
    else if !Priceable(s, b, t) then s.(failed := true)
    else TradeIntrabarUpTo(s, SelectedOrders(s, b, t), b, s.issued, t)
  }

  function MarkAccount(s: State, b: Bar): State {
    if s.failed then s
    else if b.close <= 0.0 then s.(failed := true)
    else Logged(s.(account := Marked(s.account, b.close)), AccountMarked(b.openTimeMs + MINUTE_MS))
  }

  function ApplyFundingAt(s: State, timeMs: int, t: Terms): State {
    if s.failed || s.fundingIndex >= |t.funding| || t.funding[s.fundingIndex].fundingTimeMs != timeMs then s
    else
      var f := t.funding[s.fundingIndex];
      if f.referencePrice <= 0.0 then s.(failed := true)
      else Logged(s.(account := Funded(s.account, f.rate, f.referencePrice), fundingIndex := s.fundingIndex + 1), FundingApplied(timeMs))
  }

  // -------------------------------------------------------------- evaluation

  datatype Actions = Actions(cancelOrderIds: seq<nat>, submitOrders: seq<Intent>)

  function RequestCancellations(s: State, ids: seq<nat>, timeMs: int): State {
    if ids == [] then s
    else
      var s1 := RequestCancellations(s, ids[..|ids| - 1], timeMs);
      var id := ids[|ids| - 1];
      if id !in s1.orders || id in s1.pendingCancellations then s1
      else Logged(s1.(pendingCancellations := s1.pendingCancellations + {id}), CancellationAccepted(id, timeMs))
  }

  predicate Aligned(value: real, increment: real)
    requires increment > 0.0
  {
    (value / increment).Floor as real * increment == value
  }

  predicate PriceAcceptable(price: Option<real>, t: Terms)
    requires TermsValid(t)
  {
    price.Some? ==> price.value > 0.0 && Aligned(price.value, t.priceIncrement)
  }

  predicate QuantityAcceptable(i: Intent, t: Terms)
    requires TermsValid(t)
  {
    i.quantity > 0.0 && Aligned(i.quantity, t.quantityIncrement) && i.quantity >= t.minQuantity && i.quantity >= t.minTradeSize
  }

  /** Validation comes upon a text that is not a decimal: a numeric failure, which aborts the run. */
  predicate NumericFailure(i: Intent, t: Terms)
    requires TermsValid(t)
  {
    i.pair == t.pair && (i.numerals == QUANTITY_UNREADABLE || (i.numerals == PRICE_UNREADABLE && QuantityAcceptable(i, t)))
  }

  /** `validateOrderIntent`, of an intent without a numeric failure. */
  predicate IntentAcceptable(i: Intent, a: Account, t: Terms)
    requires TermsValid(t)
  {
    && i.pair == t.pair && i.numerals == READABLE && QuantityAcceptable(i, t)
    && (i.kind == POST_ONLY_LIMIT <==> i.limitPrice.Some?) && (i.kind == STOP_MARKET <==> i.stopPrice.Some?)
    && PriceAcceptable(i.limitPrice, t) && PriceAcceptable(i.stopPrice, t)
    && (i.kind == POST_ONLY_LIMIT ==> i.quantity * i.limitPrice.value * t.multiplier >= t.minNotional)
    && (i.reduceOnly ==> Reduces(a, i.side, i.quantity))
    && (i.group.Some? ==> i.reduceOnly)
  }

  function Group(orders: map<nat, Order>, group: string): set<nat> {
    set id <- orders | orders[id].group == Some(group)
  }

  function AcceptOrder(s: State, i: Intent, timeMs: int, t: Terms): State
    requires TermsValid(t)
  {
    var id := s.issued + 1;
    var s1 := s.(issued := id);
    if |s.orders| >= t.maxOpenOrders then Logged(s1, Rejected(id, timeMs))
    else if NumericFailure(i, t) then s1.(failed := true)
    else if !IntentAcceptable(i, s.account, t) || (i.group.Some? && |Group(s.orders, i.group.value)| >= 2) then Logged(s1, Rejected(id, timeMs))
    else
      var o := Order(id, i.kind, i.side, i.quantity, i.limitPrice, i.stopPrice, i.reduceOnly, i.group, timeMs, false);
      Logged(s1.(orders := s.orders[id := o]), Accepted(id, timeMs))
  }

  function AcceptOrders(s: State, intents: seq<Intent>, timeMs: int, t: Terms): State
    requires TermsValid(t)
  {
    if intents == [] then s
    else
      var s1 := AcceptOrders(s, intents[..|intents| - 1], timeMs, t);
      if s1.failed then s1 else AcceptOrder(s1, intents[|intents| - 1], timeMs, t)
  }

  function Evaluate(s: State, actions: Actions, timeMs: int, t: Terms): State
    requires TermsValid(t)
  {
    if s.failed || timeMs < t.evaluationFromMs || timeMs >= t.evaluationToMs then s
    else AcceptOrders(RequestCancellations(s, actions.cancelOrderIds, timeMs), actions.submitOrders, timeMs, t)
  }

  function ProcessBar(s: State, b: Bar, actions: Actions, t: Terms): State
    requires TermsValid(t)
  {
    if s.failed then s
    else
      var close := b.openTimeMs + MINUTE_MS;
      var s1 := ActivateOrders(ApplyPendingCancellations(s, b.openTimeMs), b, t);
      var s2 := MarkAccount(ProcessIntrabar(s1, b, t), b);
      Evaluate(ApplyFundingAt(s2, close, t), actions, close, t)
  }

  /** A run over replayed bars, with whatever the participant does at each close. */
  function Replay(initialEquity: real, bars: seq<Bar>, actions: seq<Actions>, t: Terms): State
    requires TermsValid(t) && |actions| == |bars|
  {
    if bars == [] then NewRun(initialEquity, t)
    else ProcessBar(Replay(initialEquity, bars[..|bars| - 1], actions[..|bars| - 1], t), bars[|bars| - 1], actions[|bars| - 1], t)
  }
}
