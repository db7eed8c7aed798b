/** The backtest engine in the form of its source: an object whose order book, pending
    cancellations and account are updated in place, loop by loop. Every method is proved to
    change the state exactly as the function of the same phase says. */
module BacktestRunner {
  import opened Common
  import opened Ledger
  import opened BacktestEngine
  import BacktestTheorems

  class Engine {
    const terms: Terms
    var orders: map<nat, Order>
    var pendingCancellations: set<nat>
    var account: Account
    var orderSequence: nat
    var fundingIndex: nat
    var failed: bool
    var log: seq<Event>

    ghost function View(): State
      reads this
    {
      State(orders, pendingCancellations, account, orderSequence, fundingIndex, failed, log)
    }

    constructor (initialEquity: real, terms: Terms)
      requires TermsValid(terms)
      ensures this.terms == terms && View() == NewRun(initialEquity, terms)
    {
      this.terms := terms;
      orders, pendingCancellations, account := map[], {}, Opened(initialEquity, terms.multiplier);
      orderSequence, fundingIndex, failed, log := 0, 0, false, [];
    }

    method Emit(e: Event)
      modifies this`log
      ensures View() == Logged(old(View()), e)
    {
      log := log + [e];
    }

    method CancelOrder(id: nat, timeMs: int)
      modifies this`orders, this`pendingCancellations, this`log
      ensures View() == Cancel(old(View()), id, timeMs)
    {
      orders := orders - {id};
      pendingCancellations := pendingCancellations - {id};
      Emit(Cancelled(id, timeMs));
    }

    method RejectActiveOrder(id: nat, timeMs: int)
      modifies this`orders, this`pendingCancellations, this`log
      ensures View() == Reject(old(View()), id, timeMs)
    {
      orders := orders - {id};
      pendingCancellations := pendingCancellations - {id};
      Emit(Rejected(id, timeMs));
    }

    method ExecuteCandidate(id: nat, c: Candidate, barOpenMs: int, timeMs: int) returns (filled: bool)
      requires id in orders && !failed
      modifies this`orders, this`pendingCancellations, this`account, this`failed, this`log
      ensures View() == Execute(old(View()), id, c, barOpenMs, timeMs, terms)
      ensures filled <==> !failed && Executable(old(View()), old(orders[id]), c, terms)
    {
      var o := orders[id];
      filled := false;
      if o.reduceOnly && !Reduces(account, o.side, o.quantity) {
        RejectActiveOrder(id, timeMs);
      } else if o.quantity * c.fillPrice * terms.multiplier < terms.minNotional {
        RejectActiveOrder(id, timeMs);
      } else if !FillAcceptable(FillOf(o, c, terms)) || account.quantity < 0.0 {
        failed := true;
      } else {
        var before := account;
        account := Ledger.Filled(account, FillOf(o, c, terms));
        orders := orders - {id};
        Emit(Event.Filled(id, timeMs, o, barOpenMs, orderSequence, before, account));
        filled := true;
      }
    }

    method ApplyPendingCancellations(timeMs: int)
      modifies this`orders, this`pendingCancellations, this`log
      ensures View() == BacktestEngine.ApplyPendingCancellations(old(View()), timeMs)
    {
      var requested := pendingCancellations;
      pendingCancellations := {};
      ghost var s := View();
      var n := 0;
      while n < orderSequence
        invariant n <= orderSequence
        invariant View() == CancelUpTo(s, requested, n, timeMs)
      {
        n := n + 1;
        if n in requested && n in orders {
          CancelOrder(n, timeMs);
        }
      }
    }

    method Activate(b: Bar)
      modifies this`orders, this`pendingCancellations, this`log
      ensures View() == ActivateUpTo(old(View()), b, orderSequence)
    {
      var n := 0;
      while n < orderSequence
        invariant n <= orderSequence
        invariant View() == ActivateUpTo(old(View()), b, n)
      {
        n := n + 1;
        if n in orders && !orders[n].open {
          if WouldTake(orders[n], b.open) {
            RejectActiveOrder(n, b.openTimeMs);
          } else {
            orders := orders[n := orders[n].(open := true)];
            Emit(Activated(n, b.openTimeMs));
          }
        }
      }
    }

    method ActivateOrders(b: Bar)
      requires !failed
      modifies this`orders, this`pendingCancellations, this`account, this`failed, this`log
      ensures View() == BacktestEngine.ActivateOrders(old(View()), b, terms)
    {
      var market := PendingMarket(orders);
      Activate(b);
      ghost var s := View();
      ActivationNeverFails(old(View()), b, orderSequence);
      var n := 0;
      while n < orderSequence
        invariant n <= orderSequence
        invariant View() == TradeAtOpenUpTo(s, market, b, n, terms)
      {
        n := n + 1;
        if !failed && n in market && n in orders {
          var c := MarketCandidate(orders[n], b.open, terms);
          if c.fillPrice <= 0.0 {
            failed := true;
          } else {
            var _ := ExecuteCandidate(n, c, b.openTimeMs, b.openTimeMs);
          }
        }
      }
    }

    method CancelGroup(group: string, timeMs: int)
      modifies this`orders, this`pendingCancellations, this`log
      ensures View() == CancelGroupUpTo(old(View()), group, orderSequence, timeMs)
    {
      var n := 0;
      while n < orderSequence
        invariant n <= orderSequence
        invariant View() == CancelGroupUpTo(old(View()), group, n, timeMs)
      {
        n := n + 1;
        if n in orders && orders[n].group == Some(group) {
          CancelOrder(n, timeMs);
        }
      }
    }

    method ProcessIntrabar(b: Bar)
      modifies this`orders, this`pendingCancellations, this`account, this`failed, this`log
      ensures View() == BacktestEngine.ProcessIntrabar(old(View()), b, terms)
    {
      ghost var s := View();
      if failed {
        return;
      }
      var chosen := set id <- orders | Selected(State(orders, pendingCancellations, account, orderSequence, fundingIndex, failed, log), id, b, terms);
      assert chosen == SelectedOrders(s, b, terms);
      if !Priceable(State(orders, pendingCancellations, account, orderSequence, fundingIndex, failed, log), b, terms) {
        failed := true;
        return;
      }
      var n := 0;
      while n < orderSequence
        invariant n <= orderSequence
        invariant View() == TradeIntrabarUpTo(s, chosen, b, n, terms)
      {
        n := n + 1;
        if !failed && n in chosen && n in orders {
          TradeInside(n, b);
        }
      }
    }

    method TradeInside(id: nat, b: Bar)
      requires id in orders && !failed
      modifies this`orders, this`pendingCancellations, this`account, this`failed, this`log
      ensures View() == TradeIntrabar(old(View()), id, b, terms)
    {
      var o := orders[id];
      var c := IntrabarCandidate(o, b, terms);
      hide IntrabarCandidate, Execute, Executable, CancelGroupUpTo;
      if c.Some? {
        var filled := ExecuteCandidate(id, c.value, b.openTimeMs, b.openTimeMs + MINUTE_MS);
        if filled && o.group.Some? {
          CancelGroup(o.group.value, b.openTimeMs + MINUTE_MS);
        }
      }
    }

    method Mark(b: Bar)
      modifies this`account, this`failed, this`log
      ensures View() == MarkAccount(old(View()), b)
    {
      if !failed {
        if b.close <= 0.0 {
          failed := true;
        } else {
          account := Marked(account, b.close);
          Emit(AccountMarked(b.openTimeMs + MINUTE_MS));
        }
      }
    }

    method ApplyFundingAt(timeMs: int)
      modifies this`account, this`fundingIndex, this`failed, this`log
      ensures View() == BacktestEngine.ApplyFundingAt(old(View()), timeMs, terms)
    {
      hide Funded;
      if !failed && fundingIndex < |terms.funding| && terms.funding[fundingIndex].fundingTimeMs == timeMs {
        var f := terms.funding[fundingIndex];
        if f.referencePrice <= 0.0 {
          failed := true;
        } else {
          account := Funded(account, f.rate, f.referencePrice);
          fundingIndex := fundingIndex + 1;
          Emit(FundingApplied(timeMs));
        }
      }
    }

    method AcceptOrder(i: Intent, timeMs: int)
      requires TermsValid(terms)
      modifies this`orders, this`orderSequence, this`log, this`failed
      ensures View() == BacktestEngine.AcceptOrder(old(View()), i, timeMs, terms)
    {
      hide IntentAcceptable, NumericFailure;
      orderSequence := orderSequence + 1;
      if |orders| >= terms.maxOpenOrders {
        Emit(Rejected(orderSequence, timeMs));
        return;
      }
      if NumericFailure(i, terms) {
        failed := true;
        return;
      }
      if !IntentAcceptable(i, account, terms) {
        Emit(Rejected(orderSequence, timeMs));
        return;
      }
      if i.group.Some? && |Group(orders, i.group.value)| >= 2 {
        Emit(Rejected(orderSequence, timeMs));
        return;
      }
      orders := orders[orderSequence := Order(orderSequence, i.kind, i.side, i.quantity, i.limitPrice, i.stopPrice, i.reduceOnly,
                                              i.group, timeMs, false)];
      Emit(Accepted(orderSequence, timeMs));
    }

    method Evaluate(actions: Actions, timeMs: int)
      requires TermsValid(terms)
      modifies this`orders, this`pendingCancellations, this`orderSequence, this`log, this`failed
      ensures View() == BacktestEngine.Evaluate(old(View()), actions, timeMs, terms)
    {
      if failed || timeMs < terms.evaluationFromMs || timeMs >= terms.evaluationToMs {
        return;
      }
      ghost var s := View();
      var ids := actions.cancelOrderIds;
      var n := 0;
      while n < |ids|
        invariant n <= |ids| && View() == RequestCancellations(s, ids[..n], timeMs)
      {
        assert ids[..n + 1][..n] == ids[..n];
        if ids[n] in orders && ids[n] !in pendingCancellations {
          pendingCancellations := pendingCancellations + {ids[n]};
          Emit(CancellationAccepted(ids[n], timeMs));
        }
        n := n + 1;
      }
      assert ids[..n] == ids;
      SubmitOrders(actions.submitOrders, timeMs);
    }

    method SubmitOrders(intents: seq<Intent>, timeMs: int)
      requires TermsValid(terms)
      modifies this`orders, this`orderSequence, this`log, this`failed
      ensures View() == AcceptOrders(old(View()), intents, timeMs, terms)
    {
      hide BacktestEngine.AcceptOrder;
      var n := 0;
      while n < |intents|
        invariant n <= |intents| && View() == AcceptOrders(old(View()), intents[..n], timeMs, terms)
      {
        assert intents[..n + 1][..n] == intents[..n];
        if !failed {
          AcceptOrder(intents[n], timeMs);
        }
        n := n + 1;
      }
      assert intents[..n] == intents;
    }

    /** One bar, phase by phase. Above the bars seen so far, the book's invariant carries over. */
    method ProcessBar(b: Bar, actions: Actions)
      requires TermsValid(terms)
      requires BacktestTheorems.Inv(View(), terms, b.openTimeMs, b.openTimeMs)
      modifies this
      ensures View() == BacktestEngine.ProcessBar(old(View()), b, actions, terms)
      ensures BacktestTheorems.Inv(View(), terms, b.openTimeMs + MINUTE_MS, b.openTimeMs + MINUTE_MS)
    {
      hide BacktestTheorems.Inv, BacktestEngine.ApplyPendingCancellations, BacktestEngine.ActivateOrders,
        BacktestEngine.ProcessIntrabar, MarkAccount, BacktestEngine.ApplyFundingAt, BacktestEngine.Evaluate;
      BacktestTheorems.BarInv(View(), b, actions, terms);
      if failed {
        return;
      }
      var close := b.openTimeMs + MINUTE_MS;
      ghost var s := View();
      ApplyPendingCancellations(b.openTimeMs);
      ActivateOrders(b);
      ProcessIntrabar(b);
      Mark(b);
      ApplyFundingAt(close);
      Evaluate(actions, close);
    }
  }

  lemma {:induction false} ActivationNeverFails(s: State, b: Bar, n: nat)
    ensures ActivateUpTo(s, b, n).failed == s.failed
  {
    if n > 0 {
      ActivationNeverFails(s, b, n - 1);
    }
  }
}
