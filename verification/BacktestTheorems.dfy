/** What every backtest run keeps: order lifecycles, times, limits, reduce-only and OCO. */
module BacktestTheorems {
  import opened Common
  import opened Ledger
  import opened BacktestEngine

  // ------------------------------------------------------------- invariants

  ghost predicate OrderFits(o: Order, id: nat, issued: nat, submittedBy: int) {
    && o.id == id && 1 <= id <= issued && o.quantity > 0.0 && o.submittedAtMs <= submittedBy
    && (o.kind == POST_ONLY_LIMIT ==> o.limitPrice.Some? && o.limitPrice.value > 0.0)
    && (o.group.Some? ==> o.reduceOnly)
  }

  /** The active orders: filed under their numbers, within the limits, at most two to a group. */
  ghost predicate Book(s: State, t: Terms, submittedBy: int) {
    && (forall id <- s.orders :: OrderFits(s.orders[id], id, s.issued, submittedBy))
    && |s.orders| <= t.maxOpenOrders
    && (forall g :: |Group(s.orders, g)| <= 2)
  }

  predicate Terminal(e: Event) {
    e.Filled? || e.Cancelled? || e.Rejected?
  }

  /** Terminal orders are out of the book for good, and each ends only once. */
  ghost predicate Lifecycles(s: State) {
    && (forall i :: 0 <= i < |s.log| && Terminal(s.log[i]) ==> s.log[i].id !in s.orders && s.log[i].id <= s.issued)
    && (forall i, j :: 0 <= i < j < |s.log| && Terminal(s.log[i]) && Terminal(s.log[j]) ==> s.log[i].id != s.log[j].id)
  }

  /** An accepted cancellation is still awaited as long as the order is active, and its order is never filled. */
  ghost predicate Cancellations(s: State, awaiting: set<nat>) {
    && (forall i :: 0 <= i < |s.log| && s.log[i].CancellationAccepted? ==>
          s.log[i].id <= s.issued && (s.log[i].id in s.orders ==> s.log[i].id in awaiting))
    && (forall i, j :: 0 <= i < |s.log| && 0 <= j < |s.log| && s.log[i].CancellationAccepted? && s.log[j].Filled? ==>
          s.log[i].id != s.log[j].id)
  }

  /** A fill is never earlier than its order, and a reduce-only fill shrinks the position it found. */
  ghost predicate FillSound(e: Event)
    requires e.Filled?
  {
    && e.order.id == e.id && e.id <= e.issued && e.order.submittedAtMs <= e.barOpenMs <= e.timeMs
    && (e.order.group.Some? ==> e.order.reduceOnly)
    && (e.order.reduceOnly ==> Shrinks(e.before, e.after, e.order.quantity))
  }

  predicate Shrinks(before: Account, after: Account, quantity: real) {
    && before.side != FLAT && after.quantity == before.quantity - quantity
    && (after.side == before.side || after.side == FLAT)
  }

  /** A fill that closes its OCO group: it happened inside a bar, not at the open. */
  predicate ClosesGroup(e: Event) {
    e.Filled? && e.order.group.Some? && e.order.kind != MARKET
  }

  /** Once a group has been closed, only orders accepted later may still belong to it, but for those just leaving. */
  ghost predicate Groups(s: State, leaving: set<nat>) {
    && (forall i, id :: 0 <= i < |s.log| && ClosesGroup(s.log[i]) && id in s.orders && id !in leaving && s.orders[id].group == s.log[i].order.group ==>
          id > s.log[i].issued)
    && (forall i, j :: 0 <= i < j < |s.log| && ClosesGroup(s.log[i]) && s.log[j].Filled? && s.log[j].order.group == s.log[i].order.group ==>
          s.log[j].id > s.log[i].issued)
  }

  ghost predicate Times(log: seq<Event>, now: int) {
    && (forall i :: 0 <= i < |log| ==> log[i].timeMs <= now)
    && (forall i, j :: 0 <= i < j < |log| ==> log[i].timeMs <= log[j].timeMs)
  }

  ghost predicate Fills(s: State) {
    && Sound(s.account)
    && (forall i :: 0 <= i < |s.log| && s.log[i].Filled? ==> FillSound(s.log[i]) && s.log[i].issued <= s.issued)
  }

  ghost predicate InvBut(s: State, awaiting: set<nat>, leaving: set<nat>, t: Terms, submittedBy: int, now: int) {
    Book(s, t, submittedBy) && Lifecycles(s) && Cancellations(s, awaiting) && Fills(s) && Groups(s, leaving) && Times(s.log, now)
  }

  ghost predicate Inv(s: State, t: Terms, submittedBy: int, now: int) {
    InvBut(s, s.pendingCancellations, {}, t, submittedBy, now)
  }

  lemma {:induction false} NewRunInv(initialEquity: real, t: Terms, now: int)
    ensures Inv(NewRun(initialEquity, t), t, now, now)
  {
    forall g ensures Group(map[], g) == {} {
    }
  }

  // ------------------------------------------------------------- primitives

  /** Taking orders out of the book keeps its limits. */
  lemma {:induction false} SmallerBook(orders: map<nat, Order>, orders': map<nat, Order>)
    requires forall id <- orders' :: id in orders && orders'[id].group == orders[id].group
    ensures |orders'| <= |orders|
    ensures forall g :: Group(orders', g) <= Group(orders, g) && |Group(orders', g)| <= |Group(orders, g)|
  {
    assert orders'.Keys <= orders.Keys;
    Cardinality(orders'.Keys, orders.Keys);
    assert |orders'| == |orders'.Keys| && |orders| == |orders.Keys|;
    forall g ensures Group(orders', g) <= Group(orders, g) && |Group(orders', g)| <= |Group(orders, g)| {
      Cardinality(Group(orders', g), Group(orders, g));
    }
  }

  lemma {:induction false} Cardinality<T>(small: set<T>, large: set<T>)
    requires small <= large
    ensures |small| <= |large|
    decreases small
  {
    if small != {} {
      var x :| x in small;
      Cardinality(small - {x}, large - {x});
    }
  }

  lemma {:induction false} ShrinkingKeepsBook(s: State, s': State, t: Terms, submittedBy: int)
    requires Book(s, t, submittedBy) && s'.issued == s.issued
    requires forall id <- s'.orders :: id in s.orders && s'.orders[id] == s.orders[id].(open := s'.orders[id].open)
    ensures Book(s', t, submittedBy)
  {
    SmallerBook(s.orders, s'.orders);
    hide Group;
  }

  function Without(s: State, id: nat, e: Event): State {
    Logged(s.(orders := s.orders - {id}, pendingCancellations := s.pendingCancellations - {id}), e)
  }

  /** An order leaves the book by cancellation or rejection. */
  lemma {:induction false} RemovalInv(s: State, id: nat, e: Event, awaiting: set<nat>, leaving: set<nat>, t: Terms, submittedBy: int, now: int)
    requires InvBut(s, awaiting, leaving, t, submittedBy, now) && id in s.orders && (e == Cancelled(id, now) || e == Rejected(id, now))
    ensures InvBut(Without(s, id, e), awaiting, leaving, t, submittedBy, now)
  {
    ShrinkingKeepsBook(s, Without(s, id, e), t, submittedBy);
    assert OrderFits(s.orders[id], id, s.issued, submittedBy);
    hide Group, Book, Sound, FillSound;
    RemovalRest(s, id, e, awaiting, leaving, now);
  }

  lemma {:induction false} RemovalRest(s: State, id: nat, e: Event, awaiting: set<nat>, leaving: set<nat>, now: int)
    requires Lifecycles(s) && Cancellations(s, awaiting) && Fills(s) && Groups(s, leaving) && Times(s.log, now)
    requires id in s.orders && id <= s.issued && (e == Cancelled(id, now) || e == Rejected(id, now))
    ensures var s' := Without(s, id, e);
            Lifecycles(s') && Cancellations(s', awaiting) && Fills(s') && Groups(s', leaving) && Times(s'.log, now)
  {
    hide Sound, FillSound;
  }

  predicate Uneventful(e: Event) {
    e.Activated? || e.AccountMarked? || e.FundingApplied?
  }

  /** An event that ends, fills and cancels nothing. */
  lemma {:induction false} UneventfulInv(s: State, s': State, e: Event, t: Terms, submittedBy: int, now: int)
    requires Inv(s, t, submittedBy, now) && Uneventful(e) && e.timeMs == now
    requires s' == s.(orders := s'.orders, account := s'.account, fundingIndex := s'.fundingIndex, log := s.log + [e])
    requires s'.orders.Keys == s.orders.Keys && forall id <- s.orders :: s'.orders[id] == s.orders[id].(open := s'.orders[id].open)
    requires Sound(s'.account)
    ensures Inv(s', t, submittedBy, now)
  {
    hide Book, Sound, Groups, Lifecycles, Cancellations, Fills, Times;
    ShrinkingKeepsBook(s, s', t, submittedBy);
    UneventfulGroups(s, s', e);
    UneventfulHistory(s, s', e, now);
  }

  lemma {:induction false} UneventfulGroups(s: State, s': State, e: Event)
    requires Groups(s, {}) && Uneventful(e) && s'.log == s.log + [e]
    requires s'.orders.Keys == s.orders.Keys && forall id <- s.orders :: s'.orders[id] == s.orders[id].(open := s'.orders[id].open)
    ensures Groups(s', {})
  {
  }

  lemma {:induction false} UneventfulHistory(s: State, s': State, e: Event, now: int)
    requires Lifecycles(s) && Cancellations(s, s.pendingCancellations) && Fills(s) && Times(s.log, now)
    requires Uneventful(e) && e.timeMs == now && s'.log == s.log + [e] && s'.orders.Keys == s.orders.Keys
    requires s'.issued == s.issued && Sound(s'.account)
    ensures Lifecycles(s') && Cancellations(s', s.pendingCancellations) && Fills(s') && Times(s'.log, now)
  {
    hide Sound, FillSound;
  }

  /** A fill, of an order whose cancellation nobody has asked for. The rest of a closed group is left to leave. */
  lemma {:induction false} FillInv(s: State, id: nat, after: Account, barOpenMs: int, leaving: set<nat>, t: Terms, now: int)
    requires Inv(s, t, barOpenMs, now) && id in s.orders && s.pendingCancellations == {} && barOpenMs <= now
    requires Sound(after) && (s.orders[id].reduceOnly ==> Shrinks(s.account, after, s.orders[id].quantity))
    requires s.orders[id].group.Some? && s.orders[id].kind != MARKET ==> Group(s.orders, s.orders[id].group.value) - {id} <= leaving
    ensures InvBut(FilledState(s, id, after, barOpenMs, now), {}, leaving, t, barOpenMs, now)
  {
    var s' := FilledState(s, id, after, barOpenMs, now);
    ShrinkingKeepsBook(s, s', t, barOpenMs);
    assert OrderFits(s.orders[id], id, s.issued, barOpenMs);
    hide Book, Sound, Shrinks, Group;
    FillKeepsGroups(s, id, after, barOpenMs, leaving, now);
    FillKeepsHistory(s, id, after, barOpenMs, now);
    hide Groups, Lifecycles, Cancellations, Fills, Times;
  }

  lemma {:induction false} FillKeepsGroups(s: State, id: nat, after: Account, barOpenMs: int, leaving: set<nat>, now: int)
    requires Groups(s, {}) && id in s.orders
    requires s.orders[id].group.Some? && s.orders[id].kind != MARKET ==> Group(s.orders, s.orders[id].group.value) - {id} <= leaving
    requires s.orders[id].id == id
    ensures Groups(FilledState(s, id, after, barOpenMs, now), leaving)
  {
    var s' := FilledState(s, id, after, barOpenMs, now);
    var e := s'.log[|s.log|];
    forall other | other in s'.orders && ClosesGroup(e) && s'.orders[other].group == e.order.group ensures other in leaving {
      assert other in Group(s.orders, e.order.group.value);
    }
  }

  lemma {:induction false} FillKeepsHistory(s: State, id: nat, after: Account, barOpenMs: int, now: int)
    requires Lifecycles(s) && Cancellations(s, {}) && Fills(s) && Times(s.log, now)
    requires id in s.orders && s.pendingCancellations == {} && s.orders[id].id == id && id <= s.issued
    requires s.orders[id].submittedAtMs <= barOpenMs <= now && (s.orders[id].group.Some? ==> s.orders[id].reduceOnly)
    requires Sound(after) && (s.orders[id].reduceOnly ==> Shrinks(s.account, after, s.orders[id].quantity))
    ensures var s' := FilledState(s, id, after, barOpenMs, now);
            Lifecycles(s') && Cancellations(s', {}) && Fills(s') && Times(s'.log, now)
  {
    hide Sound, Shrinks;
    var s' := FilledState(s, id, after, barOpenMs, now);
    assert Lifecycles(s') && Times(s'.log, now) by {
      hide Cancellations, Fills;
    }
    assert Cancellations(s', {}) && Fills(s') by {
      hide Lifecycles, Times;
    }
  }

  function FilledState(s: State, id: nat, after: Account, barOpenMs: int, now: int): State
    requires id in s.orders
  {
    Logged(s.(orders := s.orders - {id}, account := after),
           Event.Filled(id, now, s.orders[id], barOpenMs, s.issued, s.account, after))
  }

  /** Orders in the book are well priced: executing one either fills or rejects it, or aborts the run. */
  lemma {:induction false} ExecuteInv(s: State, id: nat, c: Candidate, barOpenMs: int, leaving: set<nat>, t: Terms, now: int)
    requires Inv(s, t, barOpenMs, now) && id in s.orders && s.pendingCancellations == {} && barOpenMs <= now
    requires s.orders[id].group.Some? && s.orders[id].kind != MARKET ==> Group(s.orders, s.orders[id].group.value) - {id} <= leaving
    ensures var s' := Execute(s, id, c, barOpenMs, now, t);
            InvBut(s', {}, leaving, t, barOpenMs, now) && s'.pendingCancellations == {}
  {
    hide Book, Lifecycles, Cancellations, Fills, Groups, Times, Executable, FillAcceptable, FillOf, Ledger.Filled;
    LeavingWeakens(s, leaving);
    RemovalInv(s, id, Rejected(id, now), {}, leaving, t, barOpenMs, now);
    CancelRemoves(s, id, now);
    FailingBut(s, leaving, t, barOpenMs, now);
    if Executable(s, s.orders[id], c, t) && FillAcceptable(FillOf(s.orders[id], c, t)) && s.account.quantity >= 0.0 {
      ExecutedFillInv(s, id, c, barOpenMs, leaving, t, now);
    }
  }

  lemma {:induction false} LeavingWeakens(s: State, leaving: set<nat>)
    requires Groups(s, {})
    ensures Groups(s, leaving)
  {
  }

  lemma {:induction false} FailingBut(s: State, leaving: set<nat>, t: Terms, submittedBy: int, now: int)
    requires InvBut(s, {}, leaving, t, submittedBy, now)
    ensures InvBut(s.(failed := true), {}, leaving, t, submittedBy, now)
  {
    hide Sound, FillSound, Group, OrderFits;
  }

  lemma {:induction false} ExecutedFillInv(s: State, id: nat, c: Candidate, barOpenMs: int, leaving: set<nat>, t: Terms, now: int)
    requires Inv(s, t, barOpenMs, now) && id in s.orders && s.pendingCancellations == {} && barOpenMs <= now
    requires s.orders[id].group.Some? && s.orders[id].kind != MARKET ==> Group(s.orders, s.orders[id].group.value) - {id} <= leaving
    requires Executable(s, s.orders[id], c, t) && FillAcceptable(FillOf(s.orders[id], c, t)) && s.account.quantity >= 0.0
    ensures InvBut(FilledState(s, id, Ledger.Filled(s.account, FillOf(s.orders[id], c, t)), barOpenMs, now), {}, leaving, t, barOpenMs, now)
  {
    hide Book, Lifecycles, Cancellations, Groups, Times, Ledger.Filled, Sound, FillAcceptable;
    var o := s.orders[id];
    SoundnessKept(s.account, FillOf(o, c, t));
    if o.reduceOnly {
      ReducingFillShrinks(s.account, FillOf(o, c, t));
    }
    FillInv(s, id, Ledger.Filled(s.account, FillOf(o, c, t)), barOpenMs, leaving, t, now);
  }

  // ------------------------------------------------------ phases of a bar

  /** The invariant inside a bar, where no cancellation is pending any more. */
  ghost predicate InBar(s: State, t: Terms, barOpenMs: int, now: int) {
    Inv(s, t, barOpenMs, now) && s.pendingCancellations == {} && barOpenMs <= now
  }

  lemma {:induction false} CancellingInv(s: State, requested: set<nat>, n: nat, t: Terms, barOpenMs: int)
    requires InvBut(s, requested, {}, t, barOpenMs, barOpenMs) && s.pendingCancellations == {} && n <= s.issued
    ensures var s' := CancelUpTo(s, requested, n, barOpenMs);
            && InvBut(s', requested, {}, t, barOpenMs, barOpenMs)
            && s'.pendingCancellations == {} && s'.issued == s.issued
            && (forall id <- s'.orders :: id in requested ==> id > n)
  {
    hide InvBut, Without;
    Numbered(s, requested, {}, t, barOpenMs, barOpenMs);
    if n > 0 {
      CancellingInv(s, requested, n - 1, t, barOpenMs);
      var s1 := CancelUpTo(s, requested, n - 1, barOpenMs);
      if n in requested && n in s1.orders {
        RemovalInv(s1, n, Cancelled(n, barOpenMs), requested, {}, t, barOpenMs, barOpenMs);
        assert Cancel(s1, n, barOpenMs) == Without(s1, n, Cancelled(n, barOpenMs)) by {
          CancelRemoves(s1, n, barOpenMs);
        }
      }
    }
  }

  lemma {:induction false} CancelRemoves(s: State, id: nat, timeMs: int)
    ensures Cancel(s, id, timeMs) == Without(s, id, Cancelled(id, timeMs))
    ensures Reject(s, id, timeMs) == Without(s, id, Rejected(id, timeMs))
  {
  }

  lemma {:induction false} Numbered(s: State, awaiting: set<nat>, leaving: set<nat>, t: Terms, submittedBy: int, now: int)
    requires InvBut(s, awaiting, leaving, t, submittedBy, now)
    ensures forall id <- s.orders :: s.orders[id].id == id && 1 <= id <= s.issued
  {
    assert forall id <- s.orders :: OrderFits(s.orders[id], id, s.issued, submittedBy);
  }

  lemma {:induction false} CancellationsInv(s: State, t: Terms, barOpenMs: int)
    requires Inv(s, t, barOpenMs, barOpenMs)
    ensures InBar(ApplyPendingCancellations(s, barOpenMs), t, barOpenMs, barOpenMs)
    ensures ApplyPendingCancellations(s, barOpenMs).issued == s.issued
  {
    var s1 := s.(pendingCancellations := {});
    assert InvBut(s1, s.pendingCancellations, {}, t, barOpenMs, barOpenMs);
    CancellingInv(s1, s.pendingCancellations, s.issued, t, barOpenMs);
    var s' := CancelUpTo(s1, s.pendingCancellations, s.issued, barOpenMs);
    assert forall id <- s'.orders :: OrderFits(s'.orders[id], id, s'.issued, barOpenMs);
    hide CancelUpTo, Lifecycles, Fills, Groups, Times;
    assert Cancellations(s', {});
  }

  lemma {:induction false} ActivatingInv(s: State, b: Bar, n: nat, t: Terms)
    requires InBar(s, t, b.openTimeMs, b.openTimeMs)
    ensures InBar(ActivateUpTo(s, b, n), t, b.openTimeMs, b.openTimeMs)
    ensures ActivateUpTo(s, b, n).issued == s.issued
  {
    hide InBar;
    if n > 0 {
      ActivatingInv(s, b, n - 1, t);
      var s1 := ActivateUpTo(s, b, n - 1);
      if n in s1.orders && !s1.orders[n].open {
        ActivationInv(s1, n, b, t);
      }
    }
  }

  lemma {:induction false} AccountIsSound(s: State, awaiting: set<nat>, t: Terms, submittedBy: int, now: int)
    requires InvBut(s, awaiting, {}, t, submittedBy, now)
    ensures Sound(s.account)
  {
  }

  lemma {:induction false} ActivationInv(s: State, id: nat, b: Bar, t: Terms)
    requires InBar(s, t, b.openTimeMs, b.openTimeMs) && id in s.orders
    ensures InBar(ActivateOne(s, id, b), t, b.openTimeMs, b.openTimeMs)
  {
    hide InvBut, Sound, WouldTake;
    AccountIsSound(s, s.pendingCancellations, t, b.openTimeMs, b.openTimeMs);
    if WouldTake(s.orders[id], b.open) {
      CancelRemoves(s, id, b.openTimeMs);
      RemovalInv(s, id, Rejected(id, b.openTimeMs), {}, {}, t, b.openTimeMs, b.openTimeMs);
      assert ActivateOne(s, id, b).pendingCancellations == {};
    } else {
      UneventfulInv(s, ActivateOne(s, id, b), Activated(id, b.openTimeMs), t, b.openTimeMs, b.openTimeMs);
    }
  }

  lemma {:induction false} OpenTradesInv(s: State, activated: set<nat>, b: Bar, n: nat, t: Terms)
    requires InBar(s, t, b.openTimeMs, b.openTimeMs)
    requires forall id <- activated :: id in s.orders ==> s.orders[id].kind == MARKET
    ensures InBar(TradeAtOpenUpTo(s, activated, b, n, t), t, b.openTimeMs, b.openTimeMs)
    ensures TradeAtOpenUpTo(s, activated, b, n, t).issued == s.issued
    ensures forall id <- TradeAtOpenUpTo(s, activated, b, n, t).orders :: id in s.orders && TradeAtOpenUpTo(s, activated, b, n, t).orders[id] == s.orders[id]
  {
    hide InvBut;
    if n > 0 {
      OpenTradesInv(s, activated, b, n - 1, t);
      var s1 := TradeAtOpenUpTo(s, activated, b, n - 1, t);
      if !s1.failed && n in activated && n in s1.orders {
        var c := MarketCandidate(s1.orders[n], b.open, t);
        ExecuteInv(s1, n, c, b.openTimeMs, {}, t, b.openTimeMs);
        FailingInv(s1, t, b.openTimeMs, b.openTimeMs);
        hide MarketCandidate, Executable, FillAcceptable, FillOf, Ledger.Filled;
      }
    }
  }

  lemma {:induction false} FailingInv(s: State, t: Terms, submittedBy: int, now: int)
    requires Inv(s, t, submittedBy, now)
    ensures Inv(s.(failed := true), t, submittedBy, now)
  {
    hide Sound, Group;
  }

  /** What activation leaves in the book is what was there, perhaps opened. */
  lemma {:induction false} ActivationKeepsOrders(s: State, b: Bar, n: nat)
    ensures forall id <- ActivateUpTo(s, b, n).orders :: id in s.orders && ActivateUpTo(s, b, n).orders[id] == s.orders[id].(open := ActivateUpTo(s, b, n).orders[id].open)
  {
    if n > 0 {
      ActivationKeepsOrders(s, b, n - 1);
    }
  }

  lemma {:induction false} ActivateOrdersInv(s: State, b: Bar, t: Terms)
    requires InBar(s, t, b.openTimeMs, b.openTimeMs)
    ensures InBar(ActivateOrders(s, b, t), t, b.openTimeMs, b.openTimeMs)
  {
    ActivatingInv(s, b, s.issued, t);
    ActivationKeepsOrders(s, b, s.issued);
    hide InBar, ActivateUpTo;
    OpenTradesInv(ActivateUpTo(s, b, s.issued), PendingMarket(s.orders), b, s.issued, t);
  }

  // --------------------------------------------------------------- intrabar

  lemma {:induction false} GroupLeavesInv(s: State, group: string, n: nat, t: Terms, barOpenMs: int, now: int)
    requires InvBut(s, {}, Group(s.orders, group), t, barOpenMs, now) && s.pendingCancellations == {} && n <= s.issued
    ensures var s' := CancelGroupUpTo(s, group, n, now);
            && InvBut(s', {}, Group(s.orders, group), t, barOpenMs, now) && s'.pendingCancellations == {} && s'.issued == s.issued
            && (forall id <- s'.orders :: id in s.orders && s'.orders[id] == s.orders[id] && (s.orders[id].group == Some(group) ==> id > n))
  {
    hide InvBut, Group;
    Numbered(s, {}, Group(s.orders, group), t, barOpenMs, now);
    if n > 0 {
      GroupLeavesInv(s, group, n - 1, t, barOpenMs, now);
      var s1 := CancelGroupUpTo(s, group, n - 1, now);
      if n in s1.orders && s1.orders[n].group == Some(group) {
        RemovalInv(s1, n, Cancelled(n, now), {}, Group(s.orders, group), t, barOpenMs, now);
      }
    }
  }

  /** Once everybody has left the group, nobody is leaving any more. */
  lemma {:induction false} EverybodyLeft(s: State, leaving: set<nat>, t: Terms, barOpenMs: int, now: int)
    requires InvBut(s, {}, leaving, t, barOpenMs, now) && s.pendingCancellations == {}
    requires forall id <- leaving :: id !in s.orders
    ensures Inv(s, t, barOpenMs, now)
  {
    hide Book, Lifecycles, Cancellations, Fills, Times;
  }

  /** Only the siblings of a filled order are still to leave. */
  function Leaving(orders: map<nat, Order>, o: Order): set<nat> {
    if o.group.Some? then Group(orders, o.group.value) - {o.id} else {}
  }

  lemma {:induction false} IntrabarTradeInv(s: State, id: nat, b: Bar, t: Terms)
    requires InBar(s, t, b.openTimeMs, b.openTimeMs + MINUTE_MS) && id in s.orders && !s.failed
    ensures InBar(TradeIntrabar(s, id, b, t), t, b.openTimeMs, b.openTimeMs + MINUTE_MS)
    ensures TradeIntrabar(s, id, b, t).issued == s.issued
  {
    hide InBar, IntrabarCandidate, Execute, Executable, CancelGroupUpTo, FillOf, FillAcceptable, Ledger.Filled;
    var c := IntrabarCandidate(s.orders[id], b, t);
    if c.Some? {
      CandidateTradeInv(s, id, c.value, b.openTimeMs, t, b.openTimeMs + MINUTE_MS);
    }
  }

  lemma {:induction false} CandidateTradeInv(s: State, id: nat, c: Candidate, barOpenMs: int, t: Terms, now: int)
    requires InBar(s, t, barOpenMs, now) && id in s.orders && !s.failed
    ensures var s1, o := Execute(s, id, c, barOpenMs, now, t), s.orders[id];
            var s' := if s1.failed || !Executable(s, o, c, t) || o.group.None? then s1
                      else CancelGroupUpTo(s1, o.group.value, s1.issued, now);
            InBar(s', t, barOpenMs, now) && s'.issued == s.issued
  {
    var s1, o := Execute(s, id, c, barOpenMs, now, t), s.orders[id];
    hide *;
    if s1.failed || !Executable(s, o, c, t) || o.group.None? {
      ExecutePlainly(s, id, c, barOpenMs, t, now);
    } else {
      GroupedTradeInv(s, id, c, barOpenMs, t, now);
    }
  }

  /** A grouped order fills and its siblings leave with it. */
  lemma {:induction false} GroupedTradeInv(s: State, id: nat, c: Candidate, barOpenMs: int, t: Terms, now: int)
    requires InBar(s, t, barOpenMs, now) && id in s.orders && !s.failed && s.orders[id].group.Some?
    requires !Execute(s, id, c, barOpenMs, now, t).failed
    ensures var s1 := Execute(s, id, c, barOpenMs, now, t);
            var s' := CancelGroupUpTo(s1, s.orders[id].group.value, s1.issued, now);
            InBar(s', t, barOpenMs, now) && s'.issued == s.issued
  {
    var s1 := Execute(s, id, c, barOpenMs, now, t);
    ExecuteOutcome(s, id, c, barOpenMs, now, t);
    hide InvBut, Group, Execute, CancelGroupUpTo;
    Numbered(s, {}, {}, t, barOpenMs, now);
    ExecuteInv(s, id, c, barOpenMs, Leaving(s.orders, s.orders[id]), t, now);
    hide Leaving, InBar;
    SiblingsLeave(s, id, s1, t, barOpenMs, now);
  }

  /** Unless a grouped order fills, nobody has to leave. */
  lemma {:induction false} ExecutePlainly(s: State, id: nat, c: Candidate, barOpenMs: int, t: Terms, now: int)
    requires InBar(s, t, barOpenMs, now) && id in s.orders && !s.failed
    requires var s' := Execute(s, id, c, barOpenMs, now, t); s'.failed || !Executable(s, s.orders[id], c, t) || s.orders[id].group.None?
    ensures InBar(Execute(s, id, c, barOpenMs, now, t), t, barOpenMs, now)
    ensures Execute(s, id, c, barOpenMs, now, t).issued == s.issued
  {
    var o := s.orders[id];
    hide InvBut, Group;
    ExecuteOutcome(s, id, c, barOpenMs, now, t);
    FailsOrEnds(s, id, c, barOpenMs, t, now);
    hide Execute, Executable;
    if o.group.None? {
      ExecuteInv(s, id, c, barOpenMs, {}, t, now);
    } else {
      FailingInv(s, t, barOpenMs, now);
      RemovalInv(s, id, Rejected(id, now), {}, {}, t, barOpenMs, now);
      CancelRemoves(s, id, now);
    }
  }

  lemma {:induction false} FailsOrEnds(s: State, id: nat, c: Candidate, barOpenMs: int, t: Terms, now: int)
    requires id in s.orders && !s.failed
    ensures var s' := Execute(s, id, c, barOpenMs, now, t);
            && (s'.failed ==> s' == s.(failed := true))
            && (!Executable(s, s.orders[id], c, t) ==> s' == Reject(s, id, now))
  {
  }

  lemma {:induction false} SiblingsLeave(s: State, id: nat, s1: State, t: Terms, barOpenMs: int, now: int)
    requires id in s.orders && s.orders[id].id == id && s.orders[id].group.Some? && s1.orders == s.orders - {id}
    requires InvBut(s1, {}, Leaving(s.orders, s.orders[id]), t, barOpenMs, now) && s1.pendingCancellations == {} && barOpenMs <= now
    ensures InBar(CancelGroupUpTo(s1, s.orders[id].group.value, s1.issued, now), t, barOpenMs, now)
    ensures CancelGroupUpTo(s1, s.orders[id].group.value, s1.issued, now).issued == s1.issued
  {
    var g := s.orders[id].group.value;
    assert Group(s1.orders, g) == Leaving(s.orders, s.orders[id]);
    assert forall other <- Group(s1.orders, g) :: other in s1.orders && s1.orders[other].group == Some(g);
    hide InvBut, Group;
    GroupLeavesInv(s1, g, s1.issued, t, barOpenMs, now);
    var s' := CancelGroupUpTo(s1, g, s1.issued, now);
    Numbered(s1, {}, Group(s1.orders, g), t, barOpenMs, now);
    EverybodyLeft(s', Group(s1.orders, g), t, barOpenMs, now);
  }

  lemma {:induction false} ExecuteOutcome(s: State, id: nat, c: Candidate, barOpenMs: int, timeMs: int, t: Terms)
    requires id in s.orders
    ensures var s' := Execute(s, id, c, barOpenMs, timeMs, t);
            && s'.issued == s.issued
            && (s'.orders == s.orders - {id} || (s'.failed && s' == s.(failed := true)))
  {
  }

  lemma {:induction false} IntrabarTradesInv(s: State, selected: set<nat>, b: Bar, n: nat, t: Terms)
    requires InBar(s, t, b.openTimeMs, b.openTimeMs + MINUTE_MS)
    ensures InBar(TradeIntrabarUpTo(s, selected, b, n, t), t, b.openTimeMs, b.openTimeMs + MINUTE_MS)
  {
    hide InBar, TradeIntrabar;
    if n > 0 {
      IntrabarTradesInv(s, selected, b, n - 1, t);
      var s1 := TradeIntrabarUpTo(s, selected, b, n - 1, t);
      if !s1.failed && n in selected && n in s1.orders {
        IntrabarTradeInv(s1, n, b, t);
      }
    }
  }

  lemma {:induction false} LaterInv(s: State, t: Terms, barOpenMs: int, now: int, later: int)
    requires InBar(s, t, barOpenMs, now) && now <= later
    ensures InBar(s, t, barOpenMs, later)
  {
    hide Book, Lifecycles, Cancellations, Fills, Groups;
  }

  lemma {:induction false} ProcessIntrabarInv(s: State, b: Bar, t: Terms)
    requires InBar(s, t, b.openTimeMs, b.openTimeMs)
    ensures InBar(ProcessIntrabar(s, b, t), t, b.openTimeMs, b.openTimeMs + MINUTE_MS)
  {
    LaterInv(s, t, b.openTimeMs, b.openTimeMs, b.openTimeMs + MINUTE_MS);
    hide InvBut, TradeIntrabarUpTo, Priceable, SelectedOrders;
    FailingInv(s, t, b.openTimeMs, b.openTimeMs + MINUTE_MS);
    IntrabarTradesInv(s, SelectedOrders(s, b, t), b, s.issued, t);
  }

  lemma {:induction false} MarkingInv(s: State, b: Bar, t: Terms)
    requires InBar(s, t, b.openTimeMs, b.openTimeMs + MINUTE_MS)
    ensures InBar(MarkAccount(s, b), t, b.openTimeMs, b.openTimeMs + MINUTE_MS)
  {
    assert Sound(s.account);
    hide InvBut;
    FailingInv(s, t, b.openTimeMs, b.openTimeMs + MINUTE_MS);
    if !s.failed && b.close > 0.0 {
      UneventfulInv(s, MarkAccount(s, b), AccountMarked(b.openTimeMs + MINUTE_MS), t, b.openTimeMs, b.openTimeMs + MINUTE_MS);
    }
  }

  lemma {:induction false} FundingInv(s: State, t: Terms, barOpenMs: int, now: int)
    requires InBar(s, t, barOpenMs, now)
    ensures InBar(ApplyFundingAt(s, now, t), t, barOpenMs, now)
  {
    assert Sound(s.account);
    hide InvBut, Funding;
    FailingInv(s, t, barOpenMs, now);
    if ApplyFundingAt(s, now, t) != s && !ApplyFundingAt(s, now, t).failed {
      UneventfulInv(s, ApplyFundingAt(s, now, t), FundingApplied(now), t, barOpenMs, now);
    }
  }

  // ------------------------------------------------------------- evaluation

  lemma {:induction false} RequestInv(s: State, id: nat, t: Terms, submittedBy: int, now: int)
    requires Inv(s, t, submittedBy, now) && id in s.orders
    ensures Inv(Logged(s.(pendingCancellations := s.pendingCancellations + {id}), CancellationAccepted(id, now)), t, submittedBy, now)
  {
    assert OrderFits(s.orders[id], id, s.issued, submittedBy);
    hide Group, Sound, FillSound, OrderFits;
  }

  lemma {:induction false} RequestsInv(s: State, ids: seq<nat>, t: Terms, submittedBy: int, now: int)
    requires Inv(s, t, submittedBy, now)
    ensures Inv(RequestCancellations(s, ids, now), t, submittedBy, now)
    ensures RequestCancellations(s, ids, now).orders == s.orders && RequestCancellations(s, ids, now).account == s.account
  {
    hide Inv;
    if ids != [] {
      RequestsInv(s, ids[..|ids| - 1], t, submittedBy, now);
      var s1 := RequestCancellations(s, ids[..|ids| - 1], now);
      if ids[|ids| - 1] in s1.orders {
        RequestInv(s1, ids[|ids| - 1], t, submittedBy, now);
      }
    }
  }

  lemma {:induction false} RefusalInv(s: State, t: Terms, submittedBy: int, now: int)
    requires Inv(s, t, submittedBy, now)
    ensures Inv(Logged(s.(issued := s.issued + 1), Rejected(s.issued + 1, now)), t, submittedBy, now)
  {
    hide Book, Lifecycles, Cancellations, Fills, Groups, Times;
    Numbered(s, s.pendingCancellations, {}, t, submittedBy, now);
    RefusalKeepsBook(s, Rejected(s.issued + 1, now), t, submittedBy);
    RefusalKeepsHistory(s, now);
  }

  lemma {:induction false} RefusalKeepsBook(s: State, e: Event, t: Terms, submittedBy: int)
    requires Book(s, t, submittedBy)
    ensures Book(Logged(s.(issued := s.issued + 1), e), t, submittedBy)
  {
    hide Group;
    assert forall id <- s.orders :: OrderFits(s.orders[id], id, s.issued, submittedBy);
  }

  lemma {:induction false} RefusalKeepsHistory(s: State, now: int)
    requires Lifecycles(s) && Cancellations(s, s.pendingCancellations) && Fills(s) && Groups(s, {}) && Times(s.log, now)
    requires forall id <- s.orders :: id <= s.issued
    ensures var s' := Logged(s.(issued := s.issued + 1), Rejected(s.issued + 1, now));
            Lifecycles(s') && Cancellations(s', s'.pendingCancellations) && Fills(s') && Groups(s', {}) && Times(s'.log, now)
  {
    hide Sound, FillSound;
  }

  lemma {:induction false} AbortInv(s: State, t: Terms, submittedBy: int, now: int)
    requires Inv(s, t, submittedBy, now)
    ensures Inv(s.(issued := s.issued + 1, failed := true), t, submittedBy, now)
  {
    hide Sound, FillSound, Group;
    assert forall id <- s.orders :: OrderFits(s.orders[id], id, s.issued, submittedBy);
  }

  /** A new order fits the limits. */
  lemma {:induction false} AdmissionKeepsBook(s: State, o: Order, t: Terms, submittedBy: int)
    requires Book(s, t, submittedBy) && |s.orders| < t.maxOpenOrders
    requires OrderFits(o, s.issued + 1, s.issued + 1, submittedBy) && (o.group.Some? ==> |Group(s.orders, o.group.value)| < 2)
    ensures Book(s.(issued := s.issued + 1, orders := s.orders[s.issued + 1 := o]), t, submittedBy)
  {
    var id := s.issued + 1;
    var orders' := s.orders[id := o];
    assert orders'.Keys == s.orders.Keys + {id};
    assert |orders'| == |orders'.Keys| && |s.orders| == |s.orders.Keys|;
    forall g ensures |Group(orders', g)| <= 2 {
      if o.group == Some(g) {
        assert Group(orders', g) == Group(s.orders, g) + {id};
      } else {
        assert id !in s.orders by {
          assert forall other <- s.orders :: OrderFits(s.orders[other], other, s.issued, submittedBy);
        }
        assert Group(orders', g) == Group(s.orders, g);
      }
    }
    forall other | other in orders' ensures OrderFits(orders'[other], other, id, submittedBy) {
      assert other != id ==> OrderFits(s.orders[other], other, s.issued, submittedBy);
    }
  }

  lemma {:induction false} AdmissionInv(s: State, o: Order, t: Terms, now: int)
    requires Inv(s, t, now, now) && |s.orders| < t.maxOpenOrders
    requires OrderFits(o, s.issued + 1, s.issued + 1, now) && (o.group.Some? ==> |Group(s.orders, o.group.value)| < 2)
    ensures Inv(Logged(s.(issued := s.issued + 1, orders := s.orders[s.issued + 1 := o]), Accepted(s.issued + 1, now)), t, now, now)
  {
    hide Lifecycles, Cancellations, Fills, Groups, Times, Group;
    AdmissionKeepsBook(s, o, t, now);
    AdmissionKeepsGroups(s, o, now);
    AdmissionKeepsHistory(s, o, now);
  }

  function Admitted(s: State, o: Order, now: int): State {
    Logged(s.(issued := s.issued + 1, orders := s.orders[s.issued + 1 := o]), Accepted(s.issued + 1, now))
  }

  lemma {:induction false} AdmissionKeepsGroups(s: State, o: Order, now: int)
    requires Groups(s, {}) && Fills(s)
    ensures Groups(Admitted(s, o, now), {})
  {
    hide Sound, FillSound;
  }

  lemma {:induction false} AdmissionKeepsHistory(s: State, o: Order, now: int)
    requires Lifecycles(s) && Cancellations(s, s.pendingCancellations) && Fills(s) && Times(s.log, now)
    ensures var s' := Admitted(s, o, now);
            Lifecycles(s') && Cancellations(s', s.pendingCancellations) && Fills(s') && Times(s'.log, now)
  {
    hide Sound, FillSound;
  }

  lemma {:induction false} AcceptableFits(s: State, i: Intent, t: Terms, now: int)
    requires TermsValid(t) && IntentAcceptable(i, s.account, t)
    ensures OrderFits(Order(s.issued + 1, i.kind, i.side, i.quantity, i.limitPrice, i.stopPrice, i.reduceOnly, i.group, now, false),
                      s.issued + 1, s.issued + 1, now)
  {
    hide Aligned;
  }

  lemma {:induction false} AcceptInv(s: State, i: Intent, t: Terms, now: int)
    requires TermsValid(t) && Inv(s, t, now, now)
    ensures Inv(AcceptOrder(s, i, now, t), t, now, now)
  {
    hide Inv, OrderFits;
    RefusalInv(s, t, now, now);
    AbortInv(s, t, now, now);
    if |s.orders| < t.maxOpenOrders && IntentAcceptable(i, s.account, t) && (i.group.Some? ==> |Group(s.orders, i.group.value)| < 2) {
      var o := Order(s.issued + 1, i.kind, i.side, i.quantity, i.limitPrice, i.stopPrice, i.reduceOnly, i.group, now, false);
      AcceptableFits(s, i, t, now);
      hide IntentAcceptable, Group;
      AdmissionInv(s, o, t, now);
    }
  }

  lemma {:induction false} AcceptsInv(s: State, intents: seq<Intent>, t: Terms, now: int)
    requires TermsValid(t) && Inv(s, t, now, now)
    ensures Inv(AcceptOrders(s, intents, now, t), t, now, now)
  {
    hide Inv, AcceptOrder, TermsValid;
    if intents != [] {
      AcceptsInv(s, intents[..|intents| - 1], t, now);
      AcceptInv(AcceptOrders(s, intents[..|intents| - 1], now, t), intents[|intents| - 1], t, now);
    }
  }

  /** Orders of the bar just closed were submitted before its close. */
  lemma {:induction false} ClosedInv(s: State, t: Terms, barOpenMs: int, now: int)
    requires InBar(s, t, barOpenMs, now)
    ensures Inv(s, t, now, now)
  {
    hide Lifecycles, Cancellations, Fills, Groups, Times, Group;
  }

  lemma {:induction false} EvaluateInv(s: State, actions: Actions, t: Terms, barOpenMs: int, now: int)
    requires TermsValid(t) && InBar(s, t, barOpenMs, now)
    ensures Inv(Evaluate(s, actions, now, t), t, now, now)
  {
    ClosedInv(s, t, barOpenMs, now);
    hide InBar, Inv, RequestCancellations, AcceptOrders;
    RequestsInv(s, actions.cancelOrderIds, t, now, now);
    AcceptsInv(RequestCancellations(s, actions.cancelOrderIds, now), actions.submitOrders, t, now);
  }

  lemma {:induction false} BarInv(s: State, b: Bar, actions: Actions, t: Terms)
    requires TermsValid(t) && Inv(s, t, b.openTimeMs, b.openTimeMs)
    ensures Inv(ProcessBar(s, b, actions, t), t, b.openTimeMs + MINUTE_MS, b.openTimeMs + MINUTE_MS)
  {
    var close := b.openTimeMs + MINUTE_MS;
    hide InBar, Inv, ApplyPendingCancellations, ActivateOrders, ProcessIntrabar, MarkAccount, ApplyFundingAt, Evaluate, TermsValid;
    if s.failed {
      FailedLater(s, t, b.openTimeMs, close);
    } else {
      CancellationsInv(s, t, b.openTimeMs);
      var s0 := ApplyPendingCancellations(s, b.openTimeMs);
      ActivateOrdersInv(s0, b, t);
      ProcessIntrabarInv(ActivateOrders(s0, b, t), b, t);
      var s1 := ProcessIntrabar(ActivateOrders(s0, b, t), b, t);
      MarkingInv(s1, b, t);
      FundingInv(MarkAccount(s1, b), t, b.openTimeMs, close);
      EvaluateInv(ApplyFundingAt(MarkAccount(s1, b), close, t), actions, t, b.openTimeMs, close);
    }
  }

  lemma {:induction false} FailedLater(s: State, t: Terms, now: int, later: int)
    requires Inv(s, t, now, now) && now <= later
    ensures Inv(s, t, later, later)
  {
    hide Lifecycles, Cancellations, Fills, Groups, Group;
  }

  // -------------------------------------------------------------- whole runs

  /** Bars as the verified dataset replays them. */
  predicate Contiguous(bars: seq<Bar>, fromMs: int) {
    forall i :: 0 <= i < |bars| ==> bars[i].openTimeMs == fromMs + i * MINUTE_MS
  }

  lemma {:induction false} ReplayInv(initialEquity: real, bars: seq<Bar>, actions: seq<Actions>, t: Terms, fromMs: int)
    requires TermsValid(t) && |actions| == |bars| && Contiguous(bars, fromMs)
    ensures var now := fromMs + |bars| * MINUTE_MS; Inv(Replay(initialEquity, bars, actions, t), t, now, now)
  {
    if bars == [] {
      NewRunInv(initialEquity, t, fromMs);
    } else {
      var n := |bars| - 1;
      ReplayInv(initialEquity, bars[..n], actions[..n], t, fromMs);
      hide Inv, ProcessBar, TermsValid;
      BarInv(Replay(initialEquity, bars[..n], actions[..n], t), bars[n], actions[n], t);
    }
  }

  /** In every run, at every moment: the order book stays within its limits. */
  lemma {:induction false} LimitsHold(initialEquity: real, bars: seq<Bar>, actions: seq<Actions>, t: Terms, fromMs: int)
    requires TermsValid(t) && |actions| == |bars| && Contiguous(bars, fromMs)
    ensures var s := Replay(initialEquity, bars, actions, t);
            && |s.orders| <= t.maxOpenOrders
            && (forall g :: |Group(s.orders, g)| <= 2)
            && (forall id <- s.orders :: s.orders[id].group.Some? ==> s.orders[id].reduceOnly)
  {
    ReplayInv(initialEquity, bars, actions, t, fromMs);
    hide Replay, Group;
  }

  /** In every run event times never decrease; an order ends at most once, as filled, cancelled or rejected; and a fill
      never happens on a bar that opened before its order was submitted. */
  lemma {:induction false} OrdersEndOnce(initialEquity: real, bars: seq<Bar>, actions: seq<Actions>, t: Terms, fromMs: int, i: nat, j: nat)
    requires TermsValid(t) && |actions| == |bars| && Contiguous(bars, fromMs)
    requires i < j < |Replay(initialEquity, bars, actions, t).log|
    ensures var log := Replay(initialEquity, bars, actions, t).log;
            && log[i].timeMs <= log[j].timeMs
            && (Terminal(log[i]) && Terminal(log[j]) ==> log[i].id != log[j].id)
            && (log[j].Filled? ==> log[j].order.submittedAtMs <= log[j].barOpenMs <= log[j].timeMs)
  {
    ReplayInv(initialEquity, bars, actions, t, fromMs);
    hide Replay, Group;
  }

  /** In every run an order whose cancellation was accepted is never filled. */
  lemma {:induction false} CancelledNeverFills(initialEquity: real, bars: seq<Bar>, actions: seq<Actions>, t: Terms, fromMs: int, i: nat, j: nat)
    requires TermsValid(t) && |actions| == |bars| && Contiguous(bars, fromMs)
    requires var log := Replay(initialEquity, bars, actions, t).log;
             i < |log| && j < |log| && log[i].CancellationAccepted? && log[j].Filled?
    ensures var log := Replay(initialEquity, bars, actions, t).log; log[i].id != log[j].id
  {
    ReplayInv(initialEquity, bars, actions, t, fromMs);
    hide Replay, Group;
  }

  /** In every run a reduce-only fill neither enlarges nor reverses the position. */
  lemma {:induction false} ReduceOnlyReduces(initialEquity: real, bars: seq<Bar>, actions: seq<Actions>, t: Terms, fromMs: int, i: nat)
    requires TermsValid(t) && |actions| == |bars| && Contiguous(bars, fromMs)
    requires var log := Replay(initialEquity, bars, actions, t).log; i < |log| && log[i].Filled? && log[i].order.reduceOnly
    ensures var e := Replay(initialEquity, bars, actions, t).log[i]; Shrinks(e.before, e.after, e.order.quantity)
  {
    ReplayInv(initialEquity, bars, actions, t, fromMs);
    hide Replay, Group;
  }

  /** In every run: once a limit or stop leg of an OCO group has filled, the only orders of the group that can still fill
      are those accepted afterwards. So two such legs that were ever active together never both fill. */
  lemma {:induction false} OcoFillsOnce(initialEquity: real, bars: seq<Bar>, actions: seq<Actions>, t: Terms, fromMs: int, i: nat, j: nat)
    requires TermsValid(t) && |actions| == |bars| && Contiguous(bars, fromMs)
    requires var log := Replay(initialEquity, bars, actions, t).log;
             i < j < |log| && ClosesGroup(log[i]) && log[j].Filled? && log[j].order.group == log[i].order.group
    ensures var log := Replay(initialEquity, bars, actions, t).log; log[j].id > log[i].issued >= log[i].id
  {
    ReplayInv(initialEquity, bars, actions, t, fromMs);
    hide Replay, Group;
  }
}
