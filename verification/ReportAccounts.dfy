/** Every report of a run accounts for the whole size of its order. */
module ReportAccounts {
  import opened EngineTypes
  import opened PriceTime
  import opened TradeHistory

  // A report that is no rejection is about a submitted order; its fills add up to the quantity
  // reported filled, and that and the quantity reported remaining add up to the order's size.
  predicate Accounts(orders: map<nat, Order>, ev: Event) {
    ev.OrderEvent? && ev.kind != OrderRejected ==>
      && ev.orderId in orders
      && ev.trader == TraderStr(orders[ev.orderId].trader)
      && Qty(ev.fills) == ev.qtyFilled
      && ev.qtyFilled + ev.qtyRemaining == orders[ev.orderId].size
  }

  predicate AllAccount(orders: map<nat, Order>, events: seq<Event>) {
    forall i :: 0 <= i < |events| ==> Accounts(orders, events[i])
  }

  lemma TrackedAccounts(orders: map<nat, Order>, events: seq<Event>, e: Entry, kind: ExecType)
    requires Tracks(orders, events, e)
    ensures Accounts(orders, Report(e, kind))
  {
  }

  lemma JoinedAccount(orders: map<nat, Order>, a: seq<Event>, b: seq<Event>)
    requires AllAccount(orders, a) && AllAccount(orders, b)
    ensures AllAccount(orders, a + b)
  {
  }

  lemma BBOAccounts(orders: map<nat, Order>, b: Book, b': Book)
    ensures AllAccount(orders, BBO(b, b'))
  {
  }

  lemma MoreOrdersAccount(orders: map<nat, Order>, id: nat, o: Order, events: seq<Event>)
    requires AllAccount(orders, events) && id !in orders
    ensures AllAccount(orders[id := o], events)
  {
    forall i | 0 <= i < |events| ensures Accounts(orders[id := o], events[i]) {
      assert Accounts(orders, events[i]);
    }
  }

  // Both reports of one trade.
  lemma TradeAccounts(orders: map<nat, Order>, events: seq<Event>, a: Entry, opp: seq<Entry>, own: seq<Entry>)
    requires Sweeping(orders, events, a, opp, own) && opp != []
    ensures AllAccount(orders, TradeOnce(a, opp).events)
  {
    var e := opp[0];
    var qty := Min(a.size, e.size);
    var events' := events + TradeNow(a, e, e.price, qty);
    assert Untraded(a, e) && Tracks(orders, events, e);
    TradeTracks(orders, events, a, e, e.price, qty, a);
    TradeTracks(orders, events, a, e, e.price, qty, e);
    TrackedAccounts(orders, events', Traded(a, e, e.price, qty), OrderFilled);
    TrackedAccounts(orders, events', Traded(e, a, e.price, qty), OrderFilled);
  }

  lemma {:induction false} SweepAccounts(orders: map<nat, Order>, events: seq<Event>, a: Entry, opp: seq<Entry>,
                                         own: seq<Entry>)
    requires Sweeping(orders, events, a, opp, own)
    ensures AllAccount(orders, Sweep(a, opp).events)
    decreases |opp| + a.size
  {
    if 0 < a.size && opp != [] && Crosses(a, opp[0]) {
      var now := TradeOnce(a, opp);
      TradeAccounts(orders, events, a, opp, own);
      SweepingStep(orders, events, a, opp, own);
      SweepAccounts(orders, events + now.events, now.agg, now.rest, own);
      JoinedAccount(orders, now.events, Sweep(now.agg, now.rest).events);
    }
  }

  // The reports of a new order: its sweep, and what closes it.
  lemma SweptAccount(w: World, o: Order)
    requires Consistent(w) && o.price != 0
    ensures var a := Incoming(w.book.top, o);
      AllAccount(w.orders[a.id := o], Sweep(a, w.book.Orders(o.side.Opposite())).events)
  {
    var a := Incoming(w.book.top, o);
    SweepStarts(w, o);
    SweepAccounts(w.orders[a.id := o], w.events, a, w.book.Orders(o.side.Opposite()), w.book.Orders(o.side));
  }

  lemma ClosingAccounts(w: World, o: Order)
    requires Consistent(w) && o.price != 0
    ensures var a := Incoming(w.book.top, o);
      AllAccount(w.orders[a.id := o], Closing(w.book, a))
  {
    var a := Incoming(w.book.top, o);
    var s := Sweep(a, w.book.Orders(o.side.Opposite()));
    var last := if s.agg.size > 0 then [Report(s.agg, OrderAccepted)] else [];
    SweepSound(w, o);
    TrackedAccounts(w.orders[a.id := o], w.events + s.events, s.agg, OrderAccepted);
    BBOAccounts(w.orders[a.id := o], w.book, Matched(w.book, a).book);
    JoinedAccount(w.orders[a.id := o], last, BBO(w.book, Matched(w.book, a).book));
  }

  lemma AcceptAccounts(w: World, o: Order)
    requires Consistent(w) && AllAccount(w.orders, w.events) && o.price != 0 && w.book.top < MAX_ORDERS
    ensures AllAccount(Step(w, NewOrder(o)).orders, Step(w, NewOrder(o)).events)
  {
    var a := Incoming(w.book.top, o);
    var orders, swept := w.orders[a.id := o], Sweep(a, w.book.Orders(o.side.Opposite())).events;
    MoreOrdersAccount(w.orders, a.id, o, w.events);
    SweptAccount(w, o);
    JoinedAccount(orders, w.events, swept);
    ClosingAccounts(w, o);
    JoinedAccount(orders, w.events + swept, Closing(w.book, a));
    AcceptedParts(w, o);
  }

  lemma FoundIsTracked(w: World, id: nat)
    requires Consistent(w) && Has(w.book.bids + w.book.asks, id)
    ensures Tracks(w.orders, w.events, Find(w.book.bids + w.book.asks, id))
  {
  }

  lemma CancelAccounts(w: World, id: nat)
    requires AllAccount(w.orders, w.events) && 0 < id < w.book.top && Has(w.book.bids + w.book.asks, id)
    requires Tracks(w.orders, w.events, Find(w.book.bids + w.book.asks, id))
    ensures AllAccount(Step(w, CancelOrder(id)).orders, Step(w, CancelOrder(id)).events)
  {
    var e := Find(w.book.bids + w.book.asks, id);
    var b' := Book(Remove(w.book.bids, id), Remove(w.book.asks, id), w.book.top);
    var ev := Report(e, OrderCancelled);
    TrackedAccounts(w.orders, w.events, e, OrderCancelled);
    BBOAccounts(w.orders, w.book, b');
    JoinedAccount(w.orders, w.events, [ev]);
    JoinedAccount(w.orders, w.events + [ev], BBO(w.book, b'));
    CancelledStep(w, id);
  }

  lemma StepAccounts(w: World, c: Command)
    requires Consistent(w) && AllAccount(w.orders, w.events)
    ensures AllAccount(Step(w, c).orders, Step(w, c).events)
  {
    if c.NewOrder? && c.order.price != 0 && w.book.top < MAX_ORDERS {
      AcceptAccounts(w, c.order);
    } else if c.CancelOrder? && 0 < c.id < w.book.top && Has(w.book.bids + w.book.asks, c.id) {
      FoundIsTracked(w, c.id);
      CancelAccounts(w, c.id);
    }
  }

  // In every run, every report but a rejection is about a submitted order and accounts for the
  // whole of its size: filled so far, by fills that add up, and remaining.
  lemma {:induction false} EveryReportAccounts(cmds: seq<Command>)
    ensures AllAccount(Run(cmds).orders, Run(cmds).events)
  {
    if cmds != [] {
      EveryReportAccounts(cmds[..|cmds| - 1]);
      RunConsistent(cmds[..|cmds| - 1]);
      StepAccounts(Run(cmds[..|cmds| - 1]), cmds[|cmds| - 1]);
    }
  }

  lemma {:induction false} ReportedIsOneReport(orders: map<nat, Order>, events: seq<Event>, id: nat)
    requires AllAccount(orders, events) && id in orders
    ensures Qty(Reported(events, id)) <= orders[id].size
  {
    if events != [] {
      var ev := events[|events| - 1];
      assert Accounts(orders, ev);
      if !About(ev, id) {
        ReportedIsOneReport(orders, events[..|events| - 1], id);
      }
    }
  }

  // No order, whether resting, filled or cancelled, ever trades more than its size.
  lemma NeverOverfilled(cmds: seq<Command>, id: nat)
    requires id in Run(cmds).orders
    ensures Qty(Reported(Run(cmds).events, id)) <= Run(cmds).orders[id].size
  {
    EveryReportAccounts(cmds);
    ReportedIsOneReport(Run(cmds).orders, Run(cmds).events, id);
  }
}
