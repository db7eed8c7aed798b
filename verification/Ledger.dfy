/** Model of src/backtest/accounting.ts: an average-cost ledger with position flips.
    Decimals are exact, so reals; the source's 128-digit division is the one idealisation. */
module Ledger {
  import opened Common

  datatype OrderSide = BUY | SELL

  datatype PositionSide = LONG | SHORT | FLAT

  datatype FeeClass = MAKER | TAKER

  datatype Fill = Fill(side: OrderSide, quantity: real, fillPrice: real, rawReferencePrice: real, feeClass: FeeClass,
                       feeRate: real, spreadRate: real, slippageRate: real)

  datatype Account = Account(
    initialEquity: real,
    multiplier: real,
    side: PositionSide,
    quantity: real,
    averageEntryPrice: Option<real>,
    markPrice: Option<real>,
    realizedGrossPnl: real,
    unrealizedGrossPnl: real,
    makerFees: real,
    takerFees: real,
    fundingPnl: real,
    spreadCost: real,
    slippageCost: real,
    totalFills: nat,
    totalClosedTrades: nat)

  function Opened(initialEquity: real, multiplier: real): Account {
    Account(initialEquity, multiplier, FLAT, 0.0, None, None, 0.0, 0.0, 0.0, 0.0, 0.0, 0.0, 0.0, 0, 0)
  }

  // --------------------------------------------------------------- operations

  predicate FillAcceptable(f: Fill) {
    f.quantity > 0.0 && f.fillPrice > 0.0 && f.feeRate >= 0.0 && f.spreadRate >= 0.0 && f.slippageRate >= 0.0
  }

  function Incoming(side: OrderSide): PositionSide {
    if side == BUY then LONG else SHORT
  }

  function Entry(a: Account): real {
    a.averageEntryPrice.GetOr(0.0)
  }

  function AveragePrice(quantity: real, entry: real, added: real, price: real): real
    requires quantity >= 0.0 && added > 0.0
  {
    (quantity * entry + added * price) / (quantity + added)
  }

  function GrossProfit(side: PositionSide, entry: real, price: real, quantity: real, multiplier: real): real {
    if side == LONG then (price - entry) * quantity * multiplier else (entry - price) * quantity * multiplier
  }

  /** The position after a fill, with the gross profit it realises. */
  function Moved(a: Account, f: Fill): Account
    requires FillAcceptable(f) && a.quantity >= 0.0
  {
    if a.side == FLAT then
      a.(side := Incoming(f.side), quantity := f.quantity, averageEntryPrice := Some(f.fillPrice))
    else if a.side == Incoming(f.side) then
      a.(quantity := a.quantity + f.quantity,
         averageEntryPrice := Some(AveragePrice(a.quantity, Entry(a), f.quantity, f.fillPrice)))
    else
      var closing := if a.quantity <= f.quantity then a.quantity else f.quantity;
      var realized := GrossProfit(a.side, Entry(a), f.fillPrice, closing, a.multiplier);
      var a1 := a.(realizedGrossPnl := a.realizedGrossPnl + realized, totalClosedTrades := a.totalClosedTrades + 1);
      if f.quantity < a.quantity then a1.(quantity := a.quantity - f.quantity)
      else if f.quantity == a.quantity then a1.(side := FLAT, quantity := 0.0, averageEntryPrice := None, unrealizedGrossPnl := 0.0)
      else a1.(side := Incoming(f.side), quantity := f.quantity - closing, averageEntryPrice := Some(f.fillPrice))
  }

  function Fee(f: Fill, multiplier: real): real {
    f.quantity * f.fillPrice * multiplier * f.feeRate
  }

  function Attribution(f: Fill, rate: real, multiplier: real): real {
    f.rawReferencePrice * rate * f.quantity * multiplier
  }

  function Charged(a: Account, f: Fill): Account {
    a.(makerFees := if f.feeClass == MAKER then a.makerFees + Fee(f, a.multiplier) else a.makerFees,
       takerFees := if f.feeClass == TAKER then a.takerFees + Fee(f, a.multiplier) else a.takerFees,
       spreadCost := a.spreadCost + Attribution(f, f.spreadRate, a.multiplier),
       slippageCost := a.slippageCost + Attribution(f, f.slippageRate, a.multiplier),
       totalFills := a.totalFills + 1)
  }

  function Marked(a: Account, markPrice: real): Account {
    a.(markPrice := Some(markPrice),
       unrealizedGrossPnl := if a.side == FLAT then 0.0
                             else (if a.side == LONG then markPrice - Entry(a) else Entry(a) - markPrice) * a.quantity * a.multiplier)
  }

  function Filled(a: Account, f: Fill): Account
    requires FillAcceptable(f) && a.quantity >= 0.0
  {
    var a1 := Charged(Moved(a, f), f);
    if a.markPrice.Some? then Marked(a1, a.markPrice.value) else a1
  }

  function Sign(side: PositionSide): real {
    if side == LONG then 1.0 else if side == SHORT then -1.0 else 0.0
  }

  function Funding(a: Account, rate: real, referencePrice: real): real {
    -Sign(a.side) * (a.quantity * referencePrice * a.multiplier) * rate
  }

  function Funded(a: Account, rate: real, referencePrice: real): Account {
    a.(fundingPnl := a.fundingPnl + Funding(a, rate, referencePrice))
  }

  function Equity(a: Account): real {
    a.initialEquity + (a.realizedGrossPnl + a.unrealizedGrossPnl + a.fundingPnl - (a.makerFees + a.takerFees))
  }

  // ----------------------------------------------------------- plain cash flow

  /** What happened, in order: the books kept without averages, realisation or flips. */
  datatype JournalEntry = FillEntry(fill: Fill) | MarkEntry(price: real) | FundingEntry(rate: real, referencePrice: real)

  type Journal = seq<JournalEntry>

  predicate EntryAcceptable(e: JournalEntry) {
    match e
    case FillEntry(f) => FillAcceptable(f)
    case MarkEntry(price) => price > 0.0
    case FundingEntry(_, reference) => reference > 0.0
  }

  function SignedQuantity(f: Fill): real {
    if f.side == BUY then f.quantity else -f.quantity
  }

  function Position(j: Journal): real {
    if j == [] then 0.0
    else Position(j[..|j| - 1]) + (var e := j[|j| - 1]; if e.FillEntry? then SignedQuantity(e.fill) else 0.0)
  }

  function Paid(f: Fill): real {
    SignedQuantity(f) * f.fillPrice
  }

  /** Cash paid for contracts, per unit of the multiplier. */
  function Cost(j: Journal): real {
    if j == [] then 0.0
    else Cost(j[..|j| - 1]) + (var e := j[|j| - 1]; if e.FillEntry? then Paid(e.fill) else 0.0)
  }

  /** The fee of a fill: its quantity at its price, times the multiplier and its rate. */
  function FeeDue(f: Fill, multiplier: real): real {
    f.quantity * f.fillPrice * multiplier * f.feeRate
  }

  /** All fees of one class. */
  function FeesPaidAs(j: Journal, feeClass: FeeClass, multiplier: real): real {
    if j == [] then 0.0
    else FeesPaidAs(j[..|j| - 1], feeClass, multiplier) +
         (var e := j[|j| - 1];
          if e.FillEntry? && e.fill.feeClass == feeClass then FeeDue(e.fill, multiplier) else 0.0)
  }

  function FeesPaid(j: Journal, multiplier: real): real {
    FeesPaidAs(j, MAKER, multiplier) + FeesPaidAs(j, TAKER, multiplier)
  }

  /** What spread and slippage cost, at the reference prices. */
  function SpreadPaid(j: Journal, multiplier: real): real {
    if j == [] then 0.0
    else SpreadPaid(j[..|j| - 1], multiplier) +
         (var e := j[|j| - 1];
          if e.FillEntry? then e.fill.rawReferencePrice * e.fill.spreadRate * e.fill.quantity * multiplier else 0.0)
  }

  function SlippagePaid(j: Journal, multiplier: real): real {
    if j == [] then 0.0
    else SlippagePaid(j[..|j| - 1], multiplier) +
         (var e := j[|j| - 1];
          if e.FillEntry? then e.fill.rawReferencePrice * e.fill.slippageRate * e.fill.quantity * multiplier else 0.0)
  }

  function FillCount(j: Journal): nat {
    if j == [] then 0 else FillCount(j[..|j| - 1]) + if j[|j| - 1].FillEntry? then 1 else 0
  }

  /** Fills against the position held at that moment. */
  function ClosingCount(j: Journal): nat {
    if j == [] then 0
    else ClosingCount(j[..|j| - 1]) +
         (var e, held := j[|j| - 1], Position(j[..|j| - 1]);
          if e.FillEntry? && ((held > 0.0 && e.fill.side == SELL) || (held < 0.0 && e.fill.side == BUY)) then 1 else 0)
  }

  /** Funding that a position receives, or pays if it is negative. */
  function Received(position: real, rate: real, referencePrice: real, multiplier: real): real {
    -position * referencePrice * multiplier * rate
  }

  /** Funding received: each event charges the position held at that moment. */
  function FundingReceived(j: Journal, multiplier: real): real {
    if j == [] then 0.0
    else FundingReceived(j[..|j| - 1], multiplier) +
         (var e := j[|j| - 1];
          if e.FundingEntry? then Received(Position(j[..|j| - 1]), e.rate, e.referencePrice, multiplier) else 0.0)
  }

  function LastMark(j: Journal): Option<real> {
    if j == [] then None
    else if j[|j| - 1].MarkEntry? then Some(j[|j| - 1].price)
    else LastMark(j[..|j| - 1])
  }

  // ------------------------------------------------------------- refinement

  function Posted(a: Account, e: JournalEntry): Account
    requires EntryAcceptable(e) && a.quantity >= 0.0
  {
    match e
    case FillEntry(f) => Filled(a, f)
    case MarkEntry(price) => Marked(a, price)
    case FundingEntry(rate, reference) => Funded(a, rate, reference)
  }

  predicate Sound(a: Account) {
    && a.quantity >= 0.0
    && (a.side == FLAT <==> a.quantity == 0.0)
    && (a.side == FLAT <==> a.averageEntryPrice.None?)
    && (a.averageEntryPrice.Some? ==> a.averageEntryPrice.value > 0.0)
    && (a.markPrice.Some? ==> a.markPrice.value > 0.0)
  }

  function SignedPosition(a: Account): real {
    Sign(a.side) * a.quantity
  }

  /** The value at which the position is carried, less the cash paid for everything ever traded. */
  function Carrying(a: Account, cost: real): real {
    a.multiplier * (Entry(a) * SignedPosition(a) - cost)
  }

  /** The average-cost books agree with the plain cash flow of the journal. */
  ghost predicate Refines(a: Account, j: Journal) {
    && Sound(a)
    && SignedPosition(a) == Position(j)
    && a.realizedGrossPnl == Carrying(a, Cost(j))
    && a.markPrice == LastMark(j)
    && a.unrealizedGrossPnl == Unrealized(a)
    && a.makerFees + a.takerFees == FeesPaid(j, a.multiplier)
    && a.fundingPnl == FundingReceived(j, a.multiplier)
    && Tallied(a, j)
  }

  /** Fees by class, attributed costs and counts. */
  predicate Tallied(a: Account, j: Journal) {
    && a.makerFees == FeesPaidAs(j, MAKER, a.multiplier) && a.takerFees == FeesPaidAs(j, TAKER, a.multiplier)
    && a.spreadCost == SpreadPaid(j, a.multiplier) && a.slippageCost == SlippagePaid(j, a.multiplier)
    && a.totalFills == FillCount(j) && a.totalClosedTrades == ClosingCount(j)
  }

  lemma {:induction false} UntradedTally(a: Account, a': Account, j: Journal, e: JournalEntry)
    requires Tallied(a, j) && !e.FillEntry?
    requires a' == a.(markPrice := a'.markPrice, unrealizedGrossPnl := a'.unrealizedGrossPnl, fundingPnl := a'.fundingPnl)
    ensures Tallied(a', j + [e])
  {
    assert (j + [e])[..|j|] == j;
  }

  lemma {:induction false} FillTally(a: Account, j: Journal, f: Fill)
    requires Tallied(a, j) && Sound(a) && SignedPosition(a) == Position(j) && FillAcceptable(f)
    ensures Tallied(Filled(a, f), j + [FillEntry(f)])
  {
    hide Filled, Moved, Charged, Position, SignedPosition, FeesPaidAs, SpreadPaid, SlippagePaid, FillCount, ClosingCount;
    ClosesExactly(a, f);
    ChargedExactly(Moved(a, f), f);
    FilledCounts(a, f);
    TallyGrows(j, f, a.multiplier);
  }

  lemma {:induction false} TallyGrows(j: Journal, f: Fill, multiplier: real)
    ensures var j' := j + [FillEntry(f)];
            var fee := f.quantity * f.fillPrice * multiplier * f.feeRate;
            && FeesPaidAs(j', MAKER, multiplier) == FeesPaidAs(j, MAKER, multiplier) + (if f.feeClass == MAKER then fee else 0.0)
            && FeesPaidAs(j', TAKER, multiplier) == FeesPaidAs(j, TAKER, multiplier) + (if f.feeClass == TAKER then fee else 0.0)
            && SpreadPaid(j', multiplier) == SpreadPaid(j, multiplier) + f.rawReferencePrice * f.spreadRate * f.quantity * multiplier
            && SlippagePaid(j', multiplier) == SlippagePaid(j, multiplier) + f.rawReferencePrice * f.slippageRate * f.quantity * multiplier
            && FillCount(j') == FillCount(j) + 1
            && ClosingCount(j') == ClosingCount(j)
                                   + (if (Position(j) > 0.0 && f.side == SELL) || (Position(j) < 0.0 && f.side == BUY) then 1 else 0)
  {
    assert (j + [FillEntry(f)])[..|j|] == j;
    hide Position;
  }

  lemma {:induction false} FilledCounts(a: Account, f: Fill)
    requires FillAcceptable(f) && a.quantity >= 0.0
    ensures var (r, c) := (Filled(a, f), Charged(Moved(a, f), f));
            && r.makerFees == c.makerFees && r.takerFees == c.takerFees && r.spreadCost == c.spreadCost && r.slippageCost == c.slippageCost
            && r.totalFills == c.totalFills && r.totalClosedTrades == c.totalClosedTrades && r.multiplier == c.multiplier
  {
    hide Moved, Charged;
  }

  lemma {:induction false} ChargedExactly(a: Account, f: Fill)
    ensures var r := Charged(a, f);
            var fee := f.quantity * f.fillPrice * a.multiplier * f.feeRate;
            && r.makerFees == (if f.feeClass == MAKER then a.makerFees + fee else a.makerFees)
            && r.takerFees == (if f.feeClass == TAKER then a.takerFees + fee else a.takerFees)
            && r.spreadCost == a.spreadCost + f.rawReferencePrice * f.spreadRate * f.quantity * a.multiplier
            && r.slippageCost == a.slippageCost + f.rawReferencePrice * f.slippageRate * f.quantity * a.multiplier
            && r.totalFills == a.totalFills + 1 && r.totalClosedTrades == a.totalClosedTrades && r.multiplier == a.multiplier
  {
  }

  lemma {:induction false} ClosesExactly(a: Account, f: Fill)
    requires Sound(a) && FillAcceptable(f)
    ensures var (m, held) := (Moved(a, f), SignedPosition(a));
            && m.totalClosedTrades == a.totalClosedTrades + (if (held > 0.0 && f.side == SELL) || (held < 0.0 && f.side == BUY) then 1 else 0)
            && m.makerFees == a.makerFees && m.takerFees == a.takerFees && m.spreadCost == a.spreadCost && m.slippageCost == a.slippageCost
            && m.totalFills == a.totalFills && m.multiplier == a.multiplier
  {
    hide GrossProfit, AveragePrice;
  }

  function Unrealized(a: Account): real {
    if a.markPrice.None? then 0.0 else a.multiplier * ((a.markPrice.value - Entry(a)) * SignedPosition(a))
  }

  lemma {:induction false} OpenedRefines(initialEquity: real, multiplier: real)
    ensures Refines(Opened(initialEquity, multiplier), [])
  {
  }

  lemma {:induction false} PostingRefines(a: Account, j: Journal, e: JournalEntry)
    requires Refines(a, j) && EntryAcceptable(e)
    ensures Refines(Posted(a, e), j + [e])
  {
    hide Refines, Filled, Marked, Funded;
    match e
    case FillEntry(f) => FillRefines(a, j, f);
    case MarkEntry(price) => MarkRefines(a, j, price);
    case FundingEntry(rate, reference) => FundingRefines(a, j, rate, reference);
  }

  lemma {:induction false} MarkRefines(a: Account, j: Journal, price: real)
    requires Refines(a, j) && price > 0.0
    ensures Refines(Marked(a, price), j + [MarkEntry(price)])
  {
    UntradedTally(a, Marked(a, price), j, MarkEntry(price));
    hide Tallied;
    MarkingIsLinear(a, price);
    MarkGrows(j, price, a.multiplier);
    SameBooks(a, Marked(a, price));
    SameCarrying(a, Marked(a, price), Cost(j));
    hide Position, Cost, FeesPaid, FundingReceived, LastMark, SignedPosition, Unrealized, Entry, Carrying;
  }

  lemma {:induction false} MarkGrows(j: Journal, price: real, multiplier: real)
    ensures var j' := j + [MarkEntry(price)];
            && Position(j') == Position(j) && Cost(j') == Cost(j) && FeesPaid(j', multiplier) == FeesPaid(j, multiplier)
            && FundingReceived(j', multiplier) == FundingReceived(j, multiplier) && LastMark(j') == Some(price)
  {
    assert (j + [MarkEntry(price)])[..|j|] == j;
  }

  lemma {:induction false} FundingRefines(a: Account, j: Journal, rate: real, reference: real)
    requires Refines(a, j) && reference > 0.0
    ensures Refines(Funded(a, rate, reference), j + [FundingEntry(rate, reference)])
  {
    UntradedTally(a, Funded(a, rate, reference), j, FundingEntry(rate, reference));
    hide Tallied;
    FundingIsLinear(a, rate, reference);
    FundingGrows(j, rate, reference, a.multiplier);
    SameBooks(a, Funded(a, rate, reference));
    SameCarrying(a, Funded(a, rate, reference), Cost(j));
    SameUnrealized(a, Funded(a, rate, reference));
    hide Position, Cost, FeesPaid, FundingReceived, LastMark, SignedPosition, Unrealized, Entry, Carrying, Funding, Received;
  }

  lemma {:induction false} SameUnrealized(m: Account, r: Account)
    requires r.side == m.side && r.quantity == m.quantity && r.averageEntryPrice == m.averageEntryPrice
    requires r.multiplier == m.multiplier && r.markPrice == m.markPrice
    ensures Unrealized(r) == Unrealized(m)
  {
  }

  lemma {:induction false} FundingGrows(j: Journal, rate: real, reference: real, multiplier: real)
    ensures var j' := j + [FundingEntry(rate, reference)];
            && Position(j') == Position(j) && Cost(j') == Cost(j) && FeesPaid(j', multiplier) == FeesPaid(j, multiplier)
            && FundingReceived(j', multiplier) == FundingReceived(j, multiplier) + Received(Position(j), rate, reference, multiplier)
            && LastMark(j') == LastMark(j)
  {
    assert (j + [FundingEntry(rate, reference)])[..|j|] == j;
  }

  lemma {:induction false} MarkingIsLinear(a: Account, price: real)
    ensures var m := Marked(a, price); m.unrealizedGrossPnl == Unrealized(m)
  {
    Commute(price - Entry(a), a.quantity, a.multiplier);
    Commute(Entry(a) - price, a.quantity, a.multiplier);
  }

  lemma {:induction false} Commute(x: real, y: real, z: real)
    ensures x * y * z == z * (x * y) && -x * y == -(x * y) && x * -y == -(x * y)
  {
  }

  lemma {:induction false} FundingIsLinear(a: Account, rate: real, reference: real)
    ensures Funding(a, rate, reference) == Received(SignedPosition(a), rate, reference, a.multiplier)
  {
    var s, q, m := Sign(a.side), a.quantity, a.multiplier;
    calc {
      -s * (q * reference * m) * rate;
    == { Regroup(-s, q, reference, m); }
      (-s * q * reference * m) * rate;
    == { assert -s * q == -(s * q); }
      -(s * q) * reference * m * rate;
    }
  }

  lemma {:induction false} Regroup(x: real, y: real, z: real, u: real)
    ensures x * (y * z * u) == x * y * z * u
  {
  }

  /** The heart of the ledger: however a fill adds to, reduces, closes or flips the position, what has been
      realised is the carrying value of the position minus all the cash paid. */
  lemma {:induction false} FillRefines(a: Account, j: Journal, f: Fill)
    requires Refines(a, j) && FillAcceptable(f)
    ensures Refines(Filled(a, f), j + [FillEntry(f)])
  {
    var j' := j + [FillEntry(f)];
    assert j'[..|j|] == j;
    FillTally(a, j, f);
    hide Tallied;
    MovingKeepsValue(a, f, Cost(j));
    MovingTouches(a, f);
    FilledTouches(a, f);
    JournalGrows(j, f, a.multiplier);
    hide Moved, Filled, Charged, Fee, Position, Cost, FeesPaid, FundingReceived, LastMark, SignedQuantity, SignedPosition, Unrealized, Entry, Carrying, Paid;
    SameCarrying(Moved(a, f), Filled(a, f), Cost(j) + Paid(f));
    SameBooks(Moved(a, f), Filled(a, f));
  }

  lemma {:induction false} JournalGrows(j: Journal, f: Fill, multiplier: real)
    ensures var j' := j + [FillEntry(f)];
            && Position(j') == Position(j) + SignedQuantity(f)
            && Cost(j') == Cost(j) + Paid(f)
            && FeesPaid(j', multiplier) == FeesPaid(j, multiplier) + Fee(f, multiplier)
            && FundingReceived(j', multiplier) == FundingReceived(j, multiplier)
            && LastMark(j') == LastMark(j)
  {
    assert (j + [FillEntry(f)])[..|j|] == j;
  }

  lemma {:induction false} MovingTouches(a: Account, f: Fill)
    requires Sound(a) && FillAcceptable(f)
    ensures var m := Moved(a, f);
            && m == a.(side := m.side, quantity := m.quantity, averageEntryPrice := m.averageEntryPrice,
                       realizedGrossPnl := m.realizedGrossPnl, unrealizedGrossPnl := m.unrealizedGrossPnl,
                       totalClosedTrades := m.totalClosedTrades)
            && (m.unrealizedGrossPnl == a.unrealizedGrossPnl || m.unrealizedGrossPnl == 0.0)
  {
  }

  /** After the move a fill only books its fee and costs, and marks the position again. */
  lemma {:induction false} FilledTouches(a: Account, f: Fill)
    requires Sound(a) && FillAcceptable(f)
    ensures var m := Moved(a, f);
            var r := Filled(a, f);
            && r == m.(makerFees := r.makerFees, takerFees := r.takerFees, spreadCost := r.spreadCost, slippageCost := r.slippageCost,
                       totalFills := r.totalFills, markPrice := a.markPrice, unrealizedGrossPnl := r.unrealizedGrossPnl)
            && r.makerFees + r.takerFees == a.makerFees + a.takerFees + Fee(f, a.multiplier)
            && (a.markPrice.Some? ==> r.unrealizedGrossPnl == Unrealized(r))
            && (a.markPrice.None? ==> r.unrealizedGrossPnl == m.unrealizedGrossPnl)
  {
    MovingTouches(a, f);
    hide Moved, Unrealized;
    if a.markPrice.Some? {
      MarkingIsLinear(Charged(Moved(a, f), f), a.markPrice.value);
    }
  }

  lemma {:induction false} SameCarrying(m: Account, r: Account, cost: real)
    requires r.side == m.side && r.quantity == m.quantity && r.averageEntryPrice == m.averageEntryPrice && r.multiplier == m.multiplier
    ensures Carrying(r, cost) == Carrying(m, cost)
  {
  }

  lemma {:induction false} SameBooks(m: Account, r: Account)
    requires r.side == m.side && r.quantity == m.quantity && r.averageEntryPrice == m.averageEntryPrice
    ensures SignedPosition(r) == SignedPosition(m) && Entry(r) == Entry(m)
    ensures r.markPrice.None? ==> Unrealized(r) == 0.0
  {
  }

  lemma {:induction false} MovingKeepsValue(a: Account, f: Fill, cost: real)
    requires Sound(a) && FillAcceptable(f) && a.realizedGrossPnl == Carrying(a, cost)
    ensures var m := Moved(a, f);
            && Sound(m) && SignedPosition(m) == SignedPosition(a) + SignedQuantity(f)
            && m.realizedGrossPnl == Carrying(m, cost + Paid(f))
  {
    MovedIsSound(a, f);
    hide Moved, Carrying, Paid, Sound;
    if a.side == FLAT || a.side == Incoming(f.side) {
      AddingKeepsValue(a, f, cost);
    } else {
      ClosingKeepsValue(a, f, cost);
    }
  }

  lemma {:induction false} AddingKeepsValue(a: Account, f: Fill, cost: real)
    requires Sound(a) && FillAcceptable(f) && a.realizedGrossPnl == Carrying(a, cost)
    requires a.side == FLAT || a.side == Incoming(f.side)
    ensures SignedPosition(Moved(a, f)) == SignedPosition(a) + SignedQuantity(f)
    ensures Moved(a, f).realizedGrossPnl == Carrying(Moved(a, f), cost + Paid(f))
  {
    var m := Moved(a, f);
    var e, p, q, d := Entry(a), f.fillPrice, a.quantity, f.quantity;
    if a.side == FLAT {
      assert Entry(m) * SignedPosition(m) == SignedQuantity(f) * p;
    } else {
      Average(q, e, d, p);
      var s := Sign(a.side);
      Distribute(s, q * e, d * p);
      assert Entry(m) * SignedPosition(m) == s * (q * e + d * p);
    }
  }

  lemma {:induction false} ClosingKeepsValue(a: Account, f: Fill, cost: real)
    requires Sound(a) && FillAcceptable(f) && a.realizedGrossPnl == Carrying(a, cost)
    requires a.side != FLAT && a.side != Incoming(f.side)
    ensures SignedPosition(Moved(a, f)) == SignedPosition(a) + SignedQuantity(f)
    ensures Moved(a, f).realizedGrossPnl == Carrying(Moved(a, f), cost + Paid(f))
  {
    var k, e, p, q, d := a.multiplier, Entry(a), f.fillPrice, a.quantity, f.quantity;
    if d < q {
      ClosingRealises(k, e, p, d);
      Distribute(e, q, d);
    } else if d == q {
      ClosingRealises(k, e, p, q);
    } else {
      ClosingRealises(k, e, p, q);
      Distribute(p, d, q);
    }
  }

  lemma {:induction false} Average(q: real, e: real, d: real, p: real)
    requires q > 0.0 && d > 0.0 && e > 0.0 && p > 0.0
    ensures var avg := AveragePrice(q, e, d, p); avg > 0.0 && avg * (q + d) == q * e + d * p
  {
  }

  lemma {:induction false} Distribute(x: real, y: real, z: real)
    ensures x * (y + z) == x * y + x * z && x * (y - z) == x * y - x * z
  {
  }

  lemma {:induction false} ClosingRealises(k: real, e: real, p: real, c: real)
    ensures (p - e) * c * k == k * (p * c - e * c)
    ensures (e - p) * c * k == k * (e * c - p * c)
  {
  }

  // ------------------------------------------------------------- whole runs

  function Run(initialEquity: real, multiplier: real, j: Journal): (a: Account)
    requires forall i :: 0 <= i < |j| ==> EntryAcceptable(j[i])
    ensures a.quantity >= 0.0
  {
    if j == [] then Opened(initialEquity, multiplier)
    else
      var before := Run(initialEquity, multiplier, j[..|j| - 1]);
      PostingKeepsSign(before, j[|j| - 1]);
      Posted(before, j[|j| - 1])
  }

  lemma {:induction false} PostingKeepsSign(a: Account, e: JournalEntry)
    requires a.quantity >= 0.0 && EntryAcceptable(e)
    ensures Posted(a, e).quantity >= 0.0
  {
  }

  lemma {:induction false} RunRefines(initialEquity: real, multiplier: real, j: Journal)
    requires forall i :: 0 <= i < |j| ==> EntryAcceptable(j[i])
    ensures Refines(Run(initialEquity, multiplier, j), j)
    ensures Run(initialEquity, multiplier, j).multiplier == multiplier
    ensures Run(initialEquity, multiplier, j).initialEquity == initialEquity
  {
    if j == [] {
      OpenedRefines(initialEquity, multiplier);
    } else {
      var front := j[..|j| - 1];
      RunRefines(initialEquity, multiplier, front);
      PostingRefines(Run(initialEquity, multiplier, front), front, j[|j| - 1]);
      assert front + [j[|j| - 1]] == j;
      PostingKeepsTerms(Run(initialEquity, multiplier, front), j[|j| - 1]);
      hide Refines, Posted;
    }
  }

  lemma {:induction false} PostingKeepsTerms(a: Account, e: JournalEntry)
    requires a.quantity >= 0.0 && EntryAcceptable(e)
    ensures Posted(a, e).multiplier == a.multiplier && Posted(a, e).initialEquity == a.initialEquity
  {
  }

  /** What closing a position at `mark` would leave, all cash paid considered. */
  function Liquidation(multiplier: real, mark: real, position: real, cost: real): real {
    multiplier * (mark * position - cost)
  }

  /** All cash paid, given back: what a closed position has realised. */
  function CashBack(multiplier: real, cost: real): real {
    -(multiplier * cost)
  }

  /** The ledger's promise: after any journal the position is the sum of the signed fills; realised and unrealised
      profit together are what marking the position and forgetting all averages would give; and equity is the
      initial equity plus that, plus funding, less fees. */
  lemma {:induction false} EquityIsCashFlow(initialEquity: real, multiplier: real, j: Journal)
    requires forall i :: 0 <= i < |j| ==> EntryAcceptable(j[i])
    ensures var a := Run(initialEquity, multiplier, j);
            && SignedPosition(a) == Position(j)
            && (LastMark(j).Some? ==>
                  var gross := Liquidation(multiplier, LastMark(j).value, Position(j), Cost(j));
                  && a.realizedGrossPnl + a.unrealizedGrossPnl == gross
                  && Equity(a) == initialEquity + gross + FundingReceived(j, multiplier) - FeesPaid(j, multiplier))
            && (Position(j) == 0.0 ==> a.side == FLAT && a.realizedGrossPnl == CashBack(multiplier, Cost(j)))
  {
    RunRefines(initialEquity, multiplier, j);
    var a := Run(initialEquity, multiplier, j);
    BooksLiquidate(a, Cost(j));
    ZeroMeansFlat(a);
    hide Run, Position, Cost, FundingReceived, FeesPaid, LastMark, Entry, Liquidation, Carrying, Unrealized, SignedPosition, Sound,
      CashBack;
  }

  lemma {:induction false} BooksLiquidate(a: Account, cost: real)
    ensures a.markPrice.Some? ==>
              Carrying(a, cost) + Unrealized(a) == Liquidation(a.multiplier, a.markPrice.value, SignedPosition(a), cost)
    ensures SignedPosition(a) == 0.0 ==> Carrying(a, cost) == CashBack(a.multiplier, cost)
  {
    if a.markPrice.Some? {
      Cancels(a.multiplier, a.markPrice.value, Entry(a), SignedPosition(a), cost);
    }
    if SignedPosition(a) == 0.0 {
      Vanishes(a.multiplier, Entry(a), cost);
    }
  }

  lemma {:induction false} ClosedIsUnmarked(a: Account)
    ensures SignedPosition(a) == 0.0 ==> Unrealized(a) == 0.0
  {
  }

  lemma {:induction false} ZeroMeansFlat(a: Account)
    requires Sound(a)
    ensures SignedPosition(a) == 0.0 <==> a.side == FLAT
  {
  }

  lemma {:induction false} Cancels(k: real, mark: real, e: real, p: real, c: real)
    ensures k * (e * p - c) + k * ((mark - e) * p) == k * (mark * p - c)
  {
    Distribute(k, e * p - c, (mark - e) * p);
    assert (mark - e) * p == mark * p - e * p;
  }

  lemma {:induction false} Vanishes(k: real, e: real, c: real)
    ensures k * (e * 0.0 - c) == -(k * c)
  {
  }

  lemma {:induction false} SoundnessKept(a: Account, f: Fill)
    requires Sound(a) && FillAcceptable(f)
    ensures Sound(Filled(a, f))
  {
    MovedIsSound(a, f);
    FilledTouches(a, f);
    hide Moved, Filled;
  }

  lemma {:induction false} MovedIsSound(a: Account, f: Fill)
    requires Sound(a) && FillAcceptable(f)
    ensures Sound(Moved(a, f))
  {
    if a.side == Incoming(f.side) {
      Average(a.quantity, Entry(a), f.quantity, f.fillPrice);
    }
    hide GrossProfit, AveragePrice;
  }

  /** Entry price, zero while flat. */
  function PaidFor(a: Account): real {
    if a.averageEntryPrice.Some? then a.averageEntryPrice.value else 0.0
  }

  /** Adding to a position realises nothing and averages the entry by value. */
  predicate AddsAtAverage(a: Account, f: Fill, r: Account) {
    (f.side == BUY && a.side != SHORT) || (f.side == SELL && a.side != LONG) ==>
      && r.realizedGrossPnl == a.realizedGrossPnl && r.quantity == a.quantity + f.quantity && r.side == (if f.side == BUY then LONG else SHORT)
      && r.averageEntryPrice.Some? && r.averageEntryPrice.value * r.quantity == PaidFor(a) * a.quantity + f.fillPrice * f.quantity
  }

  function Gained(bought: real, sold: real, quantity: real, multiplier: real): real {
    (sold - bought) * quantity * multiplier
  }

  /** A fill against the position realises the price difference on what it closes. */
  predicate RealisesDifference(a: Account, f: Fill, r: Account) {
    var closed := if f.quantity < a.quantity then f.quantity else a.quantity;
    && (a.side == LONG && f.side == SELL ==> r.realizedGrossPnl == a.realizedGrossPnl + Gained(PaidFor(a), f.fillPrice, closed, a.multiplier))
    && (a.side == SHORT && f.side == BUY ==> r.realizedGrossPnl == a.realizedGrossPnl + Gained(f.fillPrice, PaidFor(a), closed, a.multiplier))
  }

  /** What it leaves keeps its entry; what flips the position opens anew at the fill's price. */
  predicate LeavesTheRest(a: Account, f: Fill, r: Account) {
    (f.side == SELL && a.side == LONG) || (f.side == BUY && a.side == SHORT) ==>
      && (f.quantity < a.quantity ==> r.averageEntryPrice == a.averageEntryPrice && r.side == a.side && r.quantity == a.quantity - f.quantity)
      && (f.quantity == a.quantity ==> r.averageEntryPrice == None && r.side == FLAT && r.quantity == 0.0)
      && (f.quantity > a.quantity ==> r.averageEntryPrice == Some(f.fillPrice) && r.quantity == f.quantity - a.quantity
                                      && r.side == (if f.side == BUY then LONG else SHORT))
  }

  /** The average-cost rules, of every fill. */
  lemma {:induction false} AverageCostRules(a: Account, f: Fill)
    requires Sound(a) && FillAcceptable(f)
    ensures var r := Filled(a, f); AddsAtAverage(a, f, r) && RealisesDifference(a, f, r) && LeavesTheRest(a, f, r)
  {
    hide Filled, Moved, AddsAtAverage, RealisesDifference, LeavesTheRest, Fee, Unrealized;
    MovingAdds(a, f);
    MovingRealises(a, f);
    MovingLeaves(a, f);
    FilledTouches(a, f);
    RulesOfPosition(a, f, Moved(a, f), Filled(a, f));
  }

  lemma {:induction false} RulesOfPosition(a: Account, f: Fill, m: Account, r: Account)
    requires r.realizedGrossPnl == m.realizedGrossPnl && r.quantity == m.quantity && r.side == m.side && r.averageEntryPrice == m.averageEntryPrice
    ensures AddsAtAverage(a, f, m) ==> AddsAtAverage(a, f, r)
    ensures RealisesDifference(a, f, m) ==> RealisesDifference(a, f, r)
    ensures LeavesTheRest(a, f, m) ==> LeavesTheRest(a, f, r)
  {
    hide PaidFor, Gained;
  }

  lemma {:induction false} MovingAdds(a: Account, f: Fill)
    requires Sound(a) && FillAcceptable(f)
    ensures AddsAtAverage(a, f, Moved(a, f))
  {
    hide AveragePrice, GrossProfit;
    if a.side == Incoming(f.side) {
      Average(a.quantity, Entry(a), f.quantity, f.fillPrice);
    }
  }

  lemma {:induction false} MovingRealises(a: Account, f: Fill)
    requires Sound(a) && FillAcceptable(f)
    ensures RealisesDifference(a, f, Moved(a, f))
  {
    hide AveragePrice, GrossProfit, Gained;
    GrossIsGained(Entry(a), f.fillPrice, if a.quantity <= f.quantity then a.quantity else f.quantity, a.multiplier);
  }

  lemma {:induction false} GrossIsGained(entry: real, price: real, quantity: real, multiplier: real)
    ensures GrossProfit(LONG, entry, price, quantity, multiplier) == Gained(entry, price, quantity, multiplier)
    ensures GrossProfit(SHORT, entry, price, quantity, multiplier) == Gained(price, entry, quantity, multiplier)
  {
  }

  lemma {:induction false} MovingLeaves(a: Account, f: Fill)
    requires Sound(a) && FillAcceptable(f)
    ensures LeavesTheRest(a, f, Moved(a, f))
  {
    hide AveragePrice, GrossProfit;
  }

  /** A reduce-only fill within the position never enlarges or reverses it, and only realises profit. */
  lemma {:induction false} ReducingFillShrinks(a: Account, f: Fill)
    requires Sound(a) && FillAcceptable(f) && a.side != FLAT && Incoming(f.side) != a.side && f.quantity <= a.quantity
    ensures var r := Filled(a, f);
            && r.quantity == a.quantity - f.quantity && (r.side == a.side || r.side == FLAT)
            && (r.side == a.side ==> r.averageEntryPrice == a.averageEntryPrice)
            && r.totalClosedTrades == a.totalClosedTrades + 1
  {
    MovingTouches(a, f);
    FilledTouches(a, f);
    hide Filled;
  }

  lemma {:induction false} FeeIs(f: Fill, multiplier: real)
    ensures Fee(f, multiplier) == FeeDue(f, multiplier)
  {
  }

  // --------------------------------------------------------------- the class

  class BacktestAccountingLedger {
    const initialEquity: real
    const multiplier: real
    var side: PositionSide
    var quantity: real
    var averageEntryPrice: Option<real>
    var markPrice: Option<real>
    var realizedGrossPnl: real
    var unrealizedGrossPnl: real
    var makerFees: real
    var takerFees: real
    var fundingPnl: real
    var spreadCostAttribution: real
    var slippageCostAttribution: real
    var totalFills: nat
    var totalClosedTrades: nat
    ghost var journal: Journal

    ghost function View(): Account
      reads this
    {
      Account(initialEquity, multiplier, side, quantity, averageEntryPrice, markPrice, realizedGrossPnl, unrealizedGrossPnl,
              makerFees, takerFees, fundingPnl, spreadCostAttribution, slippageCostAttribution, totalFills, totalClosedTrades)
    }

    /** The state the source's own internal check accepts, and its agreement with the journal. */
    ghost predicate Valid()
      reads this
    {
      multiplier > 0.0 && Refines(View(), journal)
    }

    constructor (initialEquity: real, multiplier: real)
      requires initialEquity > 0.0 && multiplier > 0.0
      ensures Valid() && View() == Opened(initialEquity, multiplier) && journal == []
    {
      this.initialEquity, this.multiplier := initialEquity, multiplier;
      side, quantity, averageEntryPrice, markPrice := FLAT, 0.0, None, None;
      realizedGrossPnl, unrealizedGrossPnl, makerFees, takerFees := 0.0, 0.0, 0.0, 0.0;
      fundingPnl, spreadCostAttribution, slippageCostAttribution := 0.0, 0.0, 0.0;
      totalFills, totalClosedTrades := 0, 0;
      journal := [];
      new;
      OpenedRefines(initialEquity, multiplier);
    }

    /** Books one fill; an unacceptable one is refused and changes nothing. */
    method ApplyFill(f: Fill) returns (ok: bool, fee: real, realized: real)
      requires Valid()
      modifies this
      ensures Valid()
      ensures ok == (f.quantity > 0.0 && f.fillPrice > 0.0 && f.feeRate >= 0.0 && f.spreadRate >= 0.0 && f.slippageRate >= 0.0)
      ensures ok ==> View() == Filled(old(View()), f) && journal == old(journal) + [FillEntry(f)]
      ensures ok ==> fee == FeeDue(f, multiplier) && realized == realizedGrossPnl - old(realizedGrossPnl)
      ensures !ok ==> View() == old(View()) && journal == old(journal)
    {
      ok, fee, realized := FillAcceptable(f), 0.0, 0.0;
      if ok {
        FillRefines(View(), journal, f);
        hide Refines, Moved, Fee, FeeDue, Charged, Marked, Attribution;
        fee := Fee(f, multiplier);
        FeeIs(f, multiplier);
        realized := Move(f);
        Charge(f, fee);
        if markPrice.Some? {
          Remark(markPrice.value);
        }
        journal := journal + [FillEntry(f)];
      }
    }

    /** The position part of a fill. */
    method Move(f: Fill) returns (realized: real)
      requires FillAcceptable(f) && Sound(View())
      modifies this`side, this`quantity, this`averageEntryPrice, this`realizedGrossPnl, this`unrealizedGrossPnl, this`totalClosedTrades
      ensures View() == Moved(old(View()), f)
      ensures realized == realizedGrossPnl - old(realizedGrossPnl)
    {
      hide AveragePrice, GrossProfit;
      realized := 0.0;
      var entry := averageEntryPrice.GetOr(0.0);
      if side == FLAT {
        side, quantity, averageEntryPrice := Incoming(f.side), f.quantity, Some(f.fillPrice);
      } else if side == Incoming(f.side) {
        averageEntryPrice := Some(AveragePrice(quantity, entry, f.quantity, f.fillPrice));
        quantity := quantity + f.quantity;
      } else {
        var closing := if quantity <= f.quantity then quantity else f.quantity;
        realized := GrossProfit(side, entry, f.fillPrice, closing, multiplier);
        realizedGrossPnl := realizedGrossPnl + realized;
        totalClosedTrades := totalClosedTrades + 1;
        if f.quantity < quantity {
          quantity := quantity - f.quantity;
        } else if f.quantity == quantity {
          side, quantity, averageEntryPrice, unrealizedGrossPnl := FLAT, 0.0, None, 0.0;
        } else {
          side, quantity, averageEntryPrice := Incoming(f.side), f.quantity - closing, Some(f.fillPrice);
        }
      }
    }

    /** Fee, attributed costs and the fill count. */
    method Charge(f: Fill, fee: real)
      requires fee == Fee(f, multiplier)
      modifies this`makerFees, this`takerFees, this`spreadCostAttribution, this`slippageCostAttribution, this`totalFills
      ensures View() == Charged(old(View()), f)
    {
      hide Fee, Attribution;
      if f.feeClass == MAKER {
        makerFees := makerFees + fee;
      } else {
        takerFees := takerFees + fee;
      }
      spreadCostAttribution := spreadCostAttribution + Attribution(f, f.spreadRate, multiplier);
      slippageCostAttribution := slippageCostAttribution + Attribution(f, f.slippageRate, multiplier);
      totalFills := totalFills + 1;
    }

    /** Values the position at `price`. */
    method Remark(price: real)
      modifies this`markPrice, this`unrealizedGrossPnl
      ensures View() == Marked(old(View()), price)
    {
      markPrice := Some(price);
      var entry := averageEntryPrice.GetOr(0.0);
      unrealizedGrossPnl := if side == FLAT then 0.0 else (if side == LONG then price - entry else entry - price) * quantity * multiplier;
    }

    method Mark(price: real) returns (ok: bool)
      requires Valid()
      modifies this
      ensures Valid() && ok == (price > 0.0)
      ensures ok ==> View() == Marked(old(View()), price) && journal == old(journal) + [MarkEntry(price)]
      ensures !ok ==> View() == old(View()) && journal == old(journal)
    {
      ok := price > 0.0;
      if ok {
        PostingRefines(View(), journal, MarkEntry(price));
        Remark(price);
        journal := journal + [MarkEntry(price)];
        hide Refines;
      }
    }

    method ApplyFunding(rate: real, referencePrice: real) returns (ok: bool, applied: real)
      requires Valid()
      modifies this
      ensures Valid() && ok == (referencePrice > 0.0)
      ensures ok ==> View() == Funded(old(View()), rate, referencePrice) && journal == old(journal) + [FundingEntry(rate, referencePrice)]
      ensures ok ==> applied == fundingPnl - old(fundingPnl)
      ensures !ok ==> View() == old(View()) && journal == old(journal)
    {
      ok, applied := referencePrice > 0.0, 0.0;
      if ok {
        PostingRefines(View(), journal, FundingEntry(rate, referencePrice));
        var sign := if side == LONG then 1.0 else if side == SHORT then -1.0 else 0.0;
        applied := -sign * (quantity * referencePrice * multiplier) * rate;
        fundingPnl := fundingPnl + applied;
        journal := journal + [FundingEntry(rate, referencePrice)];
        hide Refines;
      }
    }

    /** Equity is what the journal alone says: the initial equity, what liquidating at the last mark would leave of all cash
        paid, and funding, less fees. Of a closed position no mark is needed. */
    method EquitySnapshot() returns (equity: real, netPnl: real)
      requires Valid()
      ensures LastMark(journal).Some? ==>
                equity == initialEquity + Liquidation(multiplier, LastMark(journal).value, Position(journal), Cost(journal))
                          + FundingReceived(journal, multiplier) - FeesPaid(journal, multiplier)
      ensures Position(journal) == 0.0 ==>
                equity == initialEquity + CashBack(multiplier, Cost(journal))
                          + FundingReceived(journal, multiplier) - FeesPaid(journal, multiplier)
      ensures netPnl == equity - initialEquity
    {
      BooksLiquidate(View(), Cost(journal));
      hide Liquidation, CashBack, Carrying, Position, Cost, FundingReceived, FeesPaid, LastMark, Entry, SignedPosition, Sound;
      ClosedIsUnmarked(View());
      var totalFees := makerFees + takerFees;
      netPnl := realizedGrossPnl + unrealizedGrossPnl + fundingPnl - totalFees;
      equity := initialEquity + netPnl;
    }
  }
}
