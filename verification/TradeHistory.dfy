/** What the reports of a whole run say about trading: mirrored fills and conservation. */
module TradeHistory {
  import opened EngineTypes
  import opened PriceTime
  import opened BookFacts
  import opened Sequences

  // ---------------------------------------------------------------- runs

  // A book, the orders that were given an id, and everything reported so far.
  datatype World = World(book: Book, orders: map<nat, Order>, events: seq<Event>)

  const START := World(EMPTY, map[], [])

  function Step(w: World, c: Command): World {
    var out := Execute(w.book, c);
    World(out.book,
          if c.NewOrder? && out.id != NONE then w.orders[out.id := c.order] else w.orders,
          w.events + out.events)
  }

  function Run(cmds: seq<Command>): World {
    if cmds == [] then START else Step(Run(cmds[..|cmds| - 1]), cmds[|cmds| - 1])
  }

  // ---------------------------------------------------------------- reading the reports

  predicate About(ev: Event, id: nat) { ev.OrderEvent? && ev.kind != OrderRejected && ev.orderId == id }

  // The fills last reported for an order.
  function Reported(events: seq<Event>, id: nat): seq<Match> {
    if events == [] then []
    else if About(events[|events| - 1], id) then events[|events| - 1].fills
    else Reported(events[..|events| - 1], id)
  }

  // The prices and quantities of the fills against one counterparty.
  function Terms(ms: seq<Match>, id: nat): seq<(nat, nat)> {
    if ms == [] then []
    else
      var m := ms[|ms| - 1];
      Terms(ms[..|ms| - 1], id) + if m.orderId == id then [(m.price, m.qty)] else []
  }

  function Qty(ms: seq<Match>): nat {
    if ms == [] then 0 else Qty(ms[..|ms| - 1]) + ms[|ms| - 1].qty
  }

  // The `i`-th report cancels an order, with the fills last reported for it and the rest of its size.
  predicate CancelReport(orders: map<nat, Order>, events: seq<Event>, id: nat, i: int)
    requires id in orders
  {
    && 0 <= i < |events| && events[i].OrderEvent? && events[i].kind == OrderCancelled && events[i].orderId == id
    && events[i].fills == Reported(events, id)
    && Qty(events[i].fills) == events[i].qtyFilled
    && events[i].qtyFilled + events[i].qtyRemaining == orders[id].size
  }

  ghost predicate Cancelled(orders: map<nat, Order>, events: seq<Event>, id: nat)
    requires id in orders
  {
    exists i :: CancelReport(orders, events, id, i)
  }

  // ---------------------------------------------------------------- what is claimed

  // Both orders of any pair report the same trades with each other, and at most one.
  ghost predicate Mirrored(events: seq<Event>) {
    forall x: nat, y: nat :: Terms(Reported(events, x), y) == Terms(Reported(events, y), x)
                             && |Terms(Reported(events, x), y)| <= 1
  }

  // A fill reported by order `x`: against a known order of the other side, inside both limits.
  predicate GoodMatch(orders: map<nat, Order>, x: nat, m: Match) {
    && x in orders && m.orderId in orders
    && orders[x].side != orders[m.orderId].side
    && m.trader == TraderStr(orders[m.orderId].trader)
    && 0 < m.qty
    && (if orders[x].side.Buy? then orders[m.orderId].price <= m.price <= orders[x].price
        else orders[x].price <= m.price <= orders[m.orderId].price)
  }

  predicate GoodFills(orders: map<nat, Order>, x: nat, ms: seq<Match>) {
    forall i :: 0 <= i < |ms| ==> GoodMatch(orders, x, ms[i])
  }

  ghost predicate AllGood(orders: map<nat, Order>, events: seq<Event>) {
    forall x: nat :: GoodFills(orders, x, Reported(events, x))
  }

  // An entry is the order submitted, with its reported fills accounting for what is gone.
  predicate Tracks(orders: map<nat, Order>, events: seq<Event>, e: Entry) {
    && e.id in orders
    && e.price < MAX_PRICE && e.size + e.qtyFilled < WORD
    && orders[e.id] == Order(e.trader, e.price, e.size + e.qtyFilled, e.side)
    && Reported(events, e.id) == e.fills
    && Qty(e.fills) == e.qtyFilled
  }

  predicate AllTracked(orders: map<nat, Order>, events: seq<Event>, es: seq<Entry>) {
    forall i :: 0 <= i < |es| ==> Tracks(orders, events, es[i])
  }

  // An order that no longer rests was cancelled, its fills and the cancelled rest adding up to its
  // size, or is completely filled.
  ghost predicate Settled(orders: map<nat, Order>, events: seq<Event>, id: nat)
    requires id in orders
  {
    Cancelled(orders, events, id) || Qty(Reported(events, id)) == orders[id].size
  }

  // The ids given out are 1, 2, ... below `top`.
  ghost predicate Numbered(orders: map<nat, Order>, top: nat) { forall id :: id in orders <==> 0 < id < top }

  ghost predicate Consistent(w: World) {
    && WellFormed(w.book)
    && Numbered(w.orders, w.book.top)
    && Mirrored(w.events)
    && AllGood(w.orders, w.events)
    && AllTracked(w.orders, w.events, w.book.bids)
    && AllTracked(w.orders, w.events, w.book.asks)
    && (forall id :: id in w.orders ==>
          Has(w.book.bids, id) || Has(w.book.asks, id) || Settled(w.orders, w.events, id))
  }

  // ---------------------------------------------------------------- reading appended reports

  lemma ReportedLast(events: seq<Event>, ev: Event, id: nat)
    ensures Reported(events + [ev], id) == if About(ev, id) then ev.fills else Reported(events, id)
  {
    assert (events + [ev])[..|events|] == events;
  }

  lemma {:induction false} ReportedSilent(events: seq<Event>, more: seq<Event>, id: nat)
    requires forall i :: 0 <= i < |more| ==> !About(more[i], id)
    ensures Reported(events + more, id) == Reported(events, id)
  {
    if more == [] {
      assert events + more == events;
    } else {
      var n := |more| - 1;
      ReportedSilent(events, more[..n], id);
      assert events + more == (events + more[..n]) + [more[n]];
      ReportedLast(events + more[..n], more[n], id);
    }
  }

  lemma TermsLast(ms: seq<Match>, m: Match, id: nat)
    ensures Terms(ms + [m], id) == Terms(ms, id) + if m.orderId == id then [(m.price, m.qty)] else []
  {
    assert (ms + [m])[..|ms|] == ms;
  }

  lemma QtyLast(ms: seq<Match>, m: Match)
    ensures Qty(ms + [m]) == Qty(ms) + m.qty
  {
    assert (ms + [m])[..|ms|] == ms;
  }

  // ---------------------------------------------------------------- one trade

  // The two reports of a trade between `a` and `e`.
  lemma TradeReports(events: seq<Event>, a: Entry, e: Entry, id: nat)
    requires a.id != e.id
    ensures Reported(events + [Report(e, OrderFilled), Report(a, OrderFilled)], id) ==
      if id == a.id then a.fills else if id == e.id then e.fills else Reported(events, id)
  {
    var first := events + [Report(e, OrderFilled)];
    assert events + [Report(e, OrderFilled), Report(a, OrderFilled)] == first + [Report(a, OrderFilled)];
    ReportedLast(events, Report(e, OrderFilled), id);
    ReportedLast(first, Report(a, OrderFilled), id);
  }

  // The reports of a trade of `qty` at `price` between `a` and `e`.
  function TradeNow(a: Entry, e: Entry, price: nat, qty: nat): seq<Event>
    requires qty <= a.size && qty <= e.size
  {
    [Report(Traded(e, a, price, qty), OrderFilled), Report(Traded(a, e, price, qty), OrderFilled)]
  }

  lemma TermsAfter(events: seq<Event>, a: Entry, e: Entry, price: nat, qty: nat, x: nat, y: nat)
    requires a.id != e.id && qty <= a.size && qty <= e.size
    requires Reported(events, a.id) == a.fills && Reported(events, e.id) == e.fills
    ensures Terms(Reported(events + TradeNow(a, e, price, qty), x), y) == Terms(Reported(events, x), y)
      + if (x == a.id && y == e.id) || (x == e.id && y == a.id) then [(price, qty)] else []
  {
    var a', e' := Traded(a, e, price, qty), Traded(e, a, price, qty);
    TradeReports(events, a', e', x);
    if x == a.id {
      TermsLast(a.fills, Match(e.id, TraderStr(e.trader), price, qty), y);
    } else if x == e.id {
      TermsLast(e.fills, Match(a.id, TraderStr(a.trader), price, qty), y);
    }
  }

  // A first trade between two orders keeps all pairs mirrored.
  lemma TradeMirrors(events: seq<Event>, a: Entry, e: Entry, price: nat, qty: nat)
    requires Mirrored(events) && a.id != e.id && qty <= a.size && qty <= e.size
    requires Reported(events, a.id) == a.fills && Reported(events, e.id) == e.fills
    requires Terms(a.fills, e.id) == []
    ensures Mirrored(events + TradeNow(a, e, price, qty))
  {
    var events' := events + TradeNow(a, e, price, qty);
    assert Terms(Reported(events, a.id), e.id) == Terms(Reported(events, e.id), a.id);
    forall x: nat, y: nat
      ensures Terms(Reported(events', x), y) == Terms(Reported(events', y), x)
      ensures |Terms(Reported(events', x), y)| <= 1
    {
      TermsAfter(events, a, e, price, qty, x, y);
      TermsAfter(events, a, e, price, qty, y, x);
      assert Terms(Reported(events, x), y) == Terms(Reported(events, y), x);
    }
  }

  // ---------------------------------------------------------------- a sweep in progress

  predicate Resting(a: Entry, opp: seq<Entry>, own: seq<Entry>, id: nat) { id == a.id || Has(opp, id) || Has(own, id) }

  // The world in the middle of matching `a`.
  ghost predicate Sweeping(orders: map<nat, Order>, events: seq<Event>, a: Entry, opp: seq<Entry>, own: seq<Entry>) {
    && Mirrored(events) && AllGood(orders, events)
    && Tracks(orders, events, a) && AllTracked(orders, events, opp) && AllTracked(orders, events, own)
    && (forall i :: 0 <= i < |opp| ==> Untraded(a, opp[i]))
    && (forall i, j :: 0 <= i < j < |opp| ==> opp[i].id != opp[j].id)
    && (forall i :: 0 <= i < |own| ==> own[i].id != a.id)
    && (forall i, j :: 0 <= i < |opp| && 0 <= j < |own| ==> opp[i].id != own[j].id)
    && (forall id :: id in orders ==> Resting(a, opp, own, id) || Settled(orders, events, id))
  }

  // A resting order the incoming one may still trade with.
  predicate Untraded(a: Entry, e: Entry) {
    e.id != a.id && e.side != a.side && 0 < e.size && (0 < a.size ==> Terms(a.fills, e.id) == [])
  }

  lemma TradeTracks(orders: map<nat, Order>, events: seq<Event>, a: Entry, e: Entry, price: nat, qty: nat, x: Entry)
    requires Tracks(orders, events, x) && a.id != e.id && qty <= a.size && qty <= e.size
    requires x == a || x == e || (x.id != a.id && x.id != e.id)
    ensures var x' := if x == a then Traded(a, e, price, qty) else if x == e then Traded(e, a, price, qty) else x;
      Tracks(orders, events + TradeNow(a, e, price, qty), x')
  {
    TradeReports(events, Traded(a, e, price, qty), Traded(e, a, price, qty), x.id);
    if x == a {
      QtyLast(a.fills, Match(e.id, TraderStr(e.trader), price, qty));
    } else if x == e {
      QtyLast(e.fills, Match(a.id, TraderStr(a.trader), price, qty));
    }
  }

  lemma TradeGood(orders: map<nat, Order>, events: seq<Event>, a: Entry, e: Entry, qty: nat)
    requires AllGood(orders, events) && Tracks(orders, events, a) && Tracks(orders, events, e)
    requires a.id != e.id && a.side != e.side && 0 < qty <= a.size && qty <= e.size && Crosses(a, e)
    ensures AllGood(orders, events + TradeNow(a, e, e.price, qty))
  {
    var events' := events + TradeNow(a, e, e.price, qty);
    forall x: nat ensures GoodFills(orders, x, Reported(events', x)) {
      TradeReports(events, Traded(a, e, e.price, qty), Traded(e, a, e.price, qty), x);
      assert GoodFills(orders, x, Reported(events, x));
    }
  }

  lemma SilentCancel(orders: map<nat, Order>, events: seq<Event>, events': seq<Event>, id: nat)
    requires id in orders && Cancelled(orders, events, id)
    requires events <= events' && Reported(events', id) == Reported(events, id)
    ensures Cancelled(orders, events', id)
  {
    var i :| CancelReport(orders, events, id, i);
    assert CancelReport(orders, events', id, i);
  }

  lemma SilentSettled(orders: map<nat, Order>, events: seq<Event>, events': seq<Event>, id: nat)
    requires id in orders && Settled(orders, events, id)
    requires events <= events' && Reported(events', id) == Reported(events, id)
    ensures Settled(orders, events', id)
  {
    if Cancelled(orders, events, id) {
      SilentCancel(orders, events, events', id);
    }
  }

  // Membership of what one trade leaves.
  lemma TradeRest(a: Entry, opp: seq<Entry>, i: int)
    requires opp != [] && 0 <= i < |TradeOnce(a, opp).rest|
    ensures var e := opp[0];
      var e' := Traded(e, a, e.price, Min(a.size, e.size));
      var rest := TradeOnce(a, opp).rest;
      if e'.size == 0 then |rest| == |opp| - 1 && rest[i] == opp[i + 1]
      else |rest| == |opp| && rest[i] == if i == 0 then e' else opp[i]
  {
  }

  lemma RestTracked(orders: map<nat, Order>, events: seq<Event>, a: Entry, opp: seq<Entry>, own: seq<Entry>)
    requires Sweeping(orders, events, a, opp, own) && 0 < a.size && opp != []
    ensures AllTracked(orders, events + TradeOnce(a, opp).events, TradeOnce(a, opp).rest)
  {
    var e := opp[0];
    var qty := Min(a.size, e.size);
    var rest := TradeOnce(a, opp).rest;
    assert Untraded(a, e) && TradeOnce(a, opp).events == TradeNow(a, e, e.price, qty);
    forall i | 0 <= i < |rest| ensures Tracks(orders, events + TradeNow(a, e, e.price, qty), rest[i]) {
      TradeRest(a, opp, i);
      var x := if |rest| == |opp| then opp[i] else opp[i + 1];
      assert Tracks(orders, events, x) && Untraded(a, x);
      TradeTracks(orders, events, a, e, e.price, qty, x);
    }
  }

  lemma OwnTracked(orders: map<nat, Order>, events: seq<Event>, a: Entry, opp: seq<Entry>, own: seq<Entry>)
    requires Sweeping(orders, events, a, opp, own) && 0 < a.size && opp != []
    ensures AllTracked(orders, events + TradeOnce(a, opp).events, own)
    ensures Tracks(orders, events + TradeOnce(a, opp).events, TradeOnce(a, opp).agg)
  {
    var e := opp[0];
    var qty := Min(a.size, e.size);
    assert Untraded(a, e) && TradeOnce(a, opp).events == TradeNow(a, e, e.price, qty);
    forall i | 0 <= i < |own| ensures Tracks(orders, events + TradeNow(a, e, e.price, qty), own[i]) {
      assert Tracks(orders, events, own[i]);
      TradeTracks(orders, events, a, e, e.price, qty, own[i]);
    }
    TradeTracks(orders, events, a, e, e.price, qty, a);
  }

  lemma RestUntraded(a: Entry, opp: seq<Entry>)
    requires opp != [] && 0 < a.size
    requires forall i :: 0 <= i < |opp| ==> Untraded(a, opp[i])
    requires forall i, j :: 0 <= i < j < |opp| ==> opp[i].id != opp[j].id
    ensures var now := TradeOnce(a, opp);
      && (forall i :: 0 <= i < |now.rest| ==> Untraded(now.agg, now.rest[i]))
      && (forall i, j :: 0 <= i < j < |now.rest| ==> now.rest[i].id != now.rest[j].id)
  {
    var e := opp[0];
    var now := TradeOnce(a, opp);
    forall i | 0 <= i < |now.rest| ensures Untraded(now.agg, now.rest[i]) {
      TradeRest(a, opp, i);
      var x := if |now.rest| == |opp| then opp[i] else opp[i + 1];
      assert Untraded(a, x) && Untraded(a, e);
      TermsLast(a.fills, Match(e.id, TraderStr(e.trader), e.price, Min(a.size, e.size)), x.id);
    }
    forall i, j | 0 <= i < j < |now.rest| ensures now.rest[i].id != now.rest[j].id {
      TradeRest(a, opp, i);
      TradeRest(a, opp, j);
    }
  }

  lemma RestApart(a: Entry, opp: seq<Entry>, own: seq<Entry>)
    requires opp != []
    requires forall i, j :: 0 <= i < |opp| && 0 <= j < |own| ==> opp[i].id != own[j].id
    ensures var rest := TradeOnce(a, opp).rest;
      forall i, j :: 0 <= i < |rest| && 0 <= j < |own| ==> rest[i].id != own[j].id
  {
    forall i, j | 0 <= i < |TradeOnce(a, opp).rest| && 0 <= j < |own|
      ensures TradeOnce(a, opp).rest[i].id != own[j].id
    {
      TradeRest(a, opp, i);
    }
  }

  // A resting order stays in the list, or is used up.
  lemma TradeKeeps(a: Entry, opp: seq<Entry>, id: nat)
    requires opp != [] && Has(opp, id)
    ensures Has(TradeOnce(a, opp).rest, id) || (id == opp[0].id && opp[0].size <= a.size)
  {
    var rest := TradeOnce(a, opp).rest;
    var i :| 0 <= i < |opp| && opp[i].id == id;
    if |rest| == |opp| {
      TradeRest(a, opp, i);
      assert rest[i].id == id;
    } else if i > 0 {
      TradeRest(a, opp, i - 1);
      assert rest[i - 1].id == id;
    }
  }

  lemma StillSettled(orders: map<nat, Order>, events: seq<Event>, a: Entry, opp: seq<Entry>, own: seq<Entry>, id: nat)
    requires Sweeping(orders, events, a, opp, own) && 0 < a.size && opp != [] && id in orders
    ensures var now := TradeOnce(a, opp);
      Resting(now.agg, now.rest, own, id) || Settled(orders, events + now.events, id)
  {
    var e := opp[0];
    var qty := Min(a.size, e.size);
    assert Untraded(a, e) && Tracks(orders, events, e);
    TradeReports(events, Traded(a, e, e.price, qty), Traded(e, a, e.price, qty), id);
    if Has(opp, id) {
      TradeKeeps(a, opp, id);
      TradeTracks(orders, events, a, e, e.price, qty, e);
    } else if id != a.id && Settled(orders, events, id) {
      assert id == e.id ==> Has(opp, id);
      SilentSettled(orders, events, events + TradeOnce(a, opp).events, id);
    }
  }

  // One trade of a sweep keeps every claim.
  lemma SweepingStep(orders: map<nat, Order>, events: seq<Event>, a: Entry, opp: seq<Entry>, own: seq<Entry>)
    requires Sweeping(orders, events, a, opp, own) && 0 < a.size && opp != [] && Crosses(a, opp[0])
    ensures var now := TradeOnce(a, opp);
      Sweeping(orders, events + now.events, now.agg, now.rest, own)
  {
    var e := opp[0];
    var qty := Min(a.size, e.size);
    var now := TradeOnce(a, opp);
    assert Untraded(a, e) && Tracks(orders, events, e) && now.events == TradeNow(a, e, e.price, qty);
    TradeMirrors(events, a, e, e.price, qty);
    TradeGood(orders, events, a, e, qty);
    RestTracked(orders, events, a, opp, own);
    OwnTracked(orders, events, a, opp, own);
    RestUntraded(a, opp);
    RestApart(a, opp, own);
    forall id | id in orders
      ensures Resting(now.agg, now.rest, own, id) || Settled(orders, events + now.events, id)
    {
      StillSettled(orders, events, a, opp, own, id);
    }
  }

  lemma {:induction false} SweepingAll(orders: map<nat, Order>, events: seq<Event>, a: Entry, opp: seq<Entry>,
                                       own: seq<Entry>)
    requires Sweeping(orders, events, a, opp, own)
    ensures var s := Sweep(a, opp);
      Sweeping(orders, events + s.events, s.agg, s.rest, own)
    decreases |opp| + a.size
  {
    if a.size == 0 || opp == [] || !Crosses(a, opp[0]) {
      assert events + [] == events;
    } else {
      var now := TradeOnce(a, opp);
      SweepingStep(orders, events, a, opp, own);
      SweepingAll(orders, events + now.events, now.agg, now.rest, own);
      var later := Sweep(now.agg, now.rest);
      Assoc(events, now.events, later.events);
    }
  }

  // ---------------------------------------------------------------- reports that add no fill

  // The later reports extend the earlier ones and show the same fills for every order.
  ghost predicate SameReports(events: seq<Event>, events': seq<Event>) {
    events <= events' && forall id: nat :: Reported(events', id) == Reported(events, id)
  }

  // An event that repeats what is already known, or is about no order.
  predicate Echo(events: seq<Event>, ev: Event) {
    ev.OrderEvent? && ev.kind != OrderRejected ==> ev.fills == Reported(events, ev.orderId)
  }

  lemma EchoSame(events: seq<Event>, ev: Event)
    requires Echo(events, ev)
    ensures SameReports(events, events + [ev])
  {
    forall id: nat ensures Reported(events + [ev], id) == Reported(events, id) {
      ReportedLast(events, ev, id);
    }
  }

  lemma SameTransitive(a: seq<Event>, b: seq<Event>, c: seq<Event>)
    requires SameReports(a, b) && SameReports(b, c)
    ensures SameReports(a, c)
  {
    forall id: nat ensures Reported(c, id) == Reported(a, id) {
      assert Reported(b, id) == Reported(a, id);
    }
  }

  lemma BBOSame(events: seq<Event>, b: Book, b': Book)
    ensures SameReports(events, events + BBO(b, b'))
  {
    if BBO(b, b') == [] {
      assert events + [] == events;
    } else {
      EchoSame(events, BBO(b, b')[0]);
    }
  }

  lemma SameMirrored(events: seq<Event>, events': seq<Event>)
    requires SameReports(events, events') && Mirrored(events)
    ensures Mirrored(events')
  {
    forall x: nat, y: nat
      ensures Terms(Reported(events', x), y) == Terms(Reported(events', y), x) && |Terms(Reported(events', x), y)| <= 1
    {
      assert Terms(Reported(events, x), y) == Terms(Reported(events, y), x);
      assert Reported(events', x) == Reported(events, x) && Reported(events', y) == Reported(events, y);
    }
  }

  lemma SameGood(orders: map<nat, Order>, events: seq<Event>, events': seq<Event>)
    requires SameReports(events, events') && AllGood(orders, events)
    ensures AllGood(orders, events')
  {
    forall x: nat ensures GoodFills(orders, x, Reported(events', x)) {
      assert GoodFills(orders, x, Reported(events, x)) && Reported(events', x) == Reported(events, x);
    }
  }

  lemma SameTracked(orders: map<nat, Order>, events: seq<Event>, events': seq<Event>, es: seq<Entry>)
    requires SameReports(events, events') && AllTracked(orders, events, es)
    ensures AllTracked(orders, events', es)
  {
    forall i | 0 <= i < |es| ensures Tracks(orders, events', es[i]) {
      assert Tracks(orders, events, es[i]) && Reported(events', es[i].id) == Reported(events, es[i].id);
    }
  }

  lemma SameConsistent(w: World, events': seq<Event>)
    requires Consistent(w) && SameReports(w.events, events')
    ensures Consistent(w.(events := events'))
  {
    SameMirrored(w.events, events');
    SameGood(w.orders, w.events, events');
    SameTracked(w.orders, w.events, events', w.book.bids);
    SameTracked(w.orders, w.events, events', w.book.asks);
    forall id | id in w.orders
      ensures Has(w.book.bids, id) || Has(w.book.asks, id) || Settled(w.orders, events', id)
    {
      if !Has(w.book.bids, id) && !Has(w.book.asks, id) {
        SilentSettled(w.orders, w.events, events', id);
      }
    }
  }

  // ---------------------------------------------------------------- a new order

  lemma UnknownSilent(orders: map<nat, Order>, events: seq<Event>, id: nat)
    requires AllGood(orders, events) && id !in orders
    ensures Reported(events, id) == []
  {
    var ms := Reported(events, id);
    assert GoodFills(orders, id, ms);
    assert ms != [] ==> GoodMatch(orders, id, ms[0]);
  }

  lemma MoreOrdersGood(orders: map<nat, Order>, id: nat, o: Order, events: seq<Event>)
    requires AllGood(orders, events) && id !in orders
    ensures AllGood(orders[id := o], events)
  {
    forall x: nat ensures GoodFills(orders[id := o], x, Reported(events, x)) {
      assert GoodFills(orders, x, Reported(events, x));
      forall i | 0 <= i < |Reported(events, x)| ensures GoodMatch(orders[id := o], x, Reported(events, x)[i]) {
        assert GoodMatch(orders, x, Reported(events, x)[i]);
      }
    }
  }

  lemma MoreOrdersTracked(orders: map<nat, Order>, id: nat, o: Order, events: seq<Event>, es: seq<Entry>)
    requires AllTracked(orders, events, es) && id !in orders
    ensures AllTracked(orders[id := o], events, es)
  {
    forall i | 0 <= i < |es| ensures Tracks(orders[id := o], events, es[i]) {
      assert Tracks(orders, events, es[i]);
    }
  }

  lemma MoreOrdersSettled(orders: map<nat, Order>, id: nat, o: Order, events: seq<Event>, x: nat)
    requires x in orders && Settled(orders, events, x) && id !in orders
    ensures Settled(orders[id := o], events, x)
  {
    if Cancelled(orders, events, x) {
      var i :| CancelReport(orders, events, x, i);
      assert CancelReport(orders[id := o], events, x, i);
    }
  }

  // A newly accepted order starts its sweep with every claim in place.
  lemma SweepStarts(w: World, o: Order)
    requires Consistent(w) && o.price != 0
    ensures var a := Incoming(w.book.top, o);
      Sweeping(w.orders[a.id := o], w.events, a, w.book.Orders(o.side.Opposite()), w.book.Orders(o.side))
  {
    var id := w.book.top;
    var a := Incoming(id, o);
    var opp, own := w.book.Orders(o.side.Opposite()), w.book.Orders(o.side);
    UnknownSilent(w.orders, w.events, id);
    MoreOrdersGood(w.orders, id, o, w.events);
    MoreOrdersTracked(w.orders, id, o, w.events, opp);
    MoreOrdersTracked(w.orders, id, o, w.events, own);
    forall i | 0 <= i < |opp| ensures Untraded(a, opp[i]) {
      assert EntryOk(opp[i], o.side.Opposite(), id);
    }
    forall i | 0 <= i < |own| ensures own[i].id != id {
      assert EntryOk(own[i], o.side, id);
    }
    forall x | x in w.orders[id := o] ensures Resting(a, opp, own, x) || Settled(w.orders[id := o], w.events, x) {
      if !Resting(a, opp, own, x) {
        MoreOrdersSettled(w.orders, id, o, w.events, x);
      }
    }
  }

  lemma SweptAccounted(orders: map<nat, Order>, events: seq<Event>, a: Entry, opp: seq<Entry>, own: seq<Entry>, id: nat)
    requires Sweeping(orders, events, a, opp, own) && id in orders
    ensures Has(OwnSide(own, a), id) || Has(opp, id) || Settled(orders, events, id)
  {
    assert Resting(a, opp, own, id) || Settled(orders, events, id);
    InsertHas(own, a, id);
  }

  lemma SweptConsistent(orders: map<nat, Order>, events: seq<Event>, a: Entry, opp: seq<Entry>, own: seq<Entry>,
                        b: Book)
    requires Sweeping(orders, events, a, opp, own)
    requires WellFormed(b) && Numbered(orders, b.top)
    requires b.Orders(a.side) == OwnSide(own, a) && b.Orders(a.side.Opposite()) == opp
    ensures Consistent(World(b, orders, events))
  {
    OwnAfter(orders, events, own, a);
    forall id | id in orders ensures Has(b.bids, id) || Has(b.asks, id) || Settled(orders, events, id) {
      SweptAccounted(orders, events, a, opp, own, id);
    }
  }

  // The claims hold when the sweep is over.
  lemma SweepSound(w: World, o: Order)
    requires Consistent(w) && o.price != 0
    ensures var a := Incoming(w.book.top, o);
      var s := Sweep(a, w.book.Orders(o.side.Opposite()));
      Sweeping(w.orders[a.id := o], w.events + s.events, s.agg, s.rest, w.book.Orders(o.side))
  {
    var a := Incoming(w.book.top, o);
    SweepStarts(w, o);
    SweepingAll(w.orders[a.id := o], w.events, a, w.book.Orders(o.side.Opposite()), w.book.Orders(o.side));
  }

  lemma MatchedSides(b: Book, a: Entry)
    requires WellFormed(b)
    ensures var s := Sweep(a, b.Orders(a.side.Opposite()));
      var b' := Matched(b, a).book;
      && s.agg.side == a.side && s.agg.id == a.id && b'.top == b.top + 1
      && b'.Orders(a.side) == OwnSide(b.Orders(a.side), s.agg) && b'.Orders(a.side.Opposite()) == s.rest
  {
    SweptSide(b, a);
  }

  lemma OneMoreId(w: World, o: Order)
    requires Numbered(w.orders, w.book.top) && 0 < w.book.top
    ensures Numbered(w.orders[w.book.top := o], w.book.top + 1)
  {
  }

  // ... and the book is consistent again.
  lemma SweepEnds(w: World, o: Order)
    requires Consistent(w) && o.price != 0 && w.book.top < MAX_ORDERS
    ensures var a := Incoming(w.book.top, o);
      var s := Sweep(a, w.book.Orders(o.side.Opposite()));
      Consistent(World(Matched(w.book, a).book, w.orders[a.id := o], w.events + s.events))
  {
    var a := Incoming(w.book.top, o);
    var s := Sweep(a, w.book.Orders(o.side.Opposite()));
    SweepSound(w, o);
    MatchedOk(w.book, a);
    MatchedSides(w.book, a);
    OneMoreId(w, o);
    SweptConsistent(w.orders[a.id := o], w.events + s.events, s.agg, s.rest, w.book.Orders(o.side),
                    Matched(w.book, a).book);
  }

  lemma OwnAfter(orders: map<nat, Order>, events: seq<Event>, own: seq<Entry>, a: Entry)
    requires AllTracked(orders, events, own) && Tracks(orders, events, a)
    ensures AllTracked(orders, events, Insert(own, a))
  {
    forall i | 0 <= i < |Insert(own, a)| ensures Tracks(orders, events, Insert(own, a)[i]) {
      InsertAll(own, a, i);
    }
  }

  lemma InsertHas(es: seq<Entry>, e: Entry, id: nat)
    ensures Has(Insert(es, e), id) <==> Has(es, id) || id == e.id
  {
    InsertMembers(es, e);
    var all := Insert(es, e);
    if Has(all, id) {
      var i :| 0 <= i < |all| && all[i].id == id;
      InsertAll(es, e, i);
    }
    if Has(es, id) {
      var i :| 0 <= i < |es| && es[i].id == id;
      assert es[i] in multiset(all);
    }
    assert e in multiset(all);
  }

  // The reports after the sweep: the remainder's acceptance and the top of book.
  function Closing(b: Book, a: Entry): seq<Event> {
    var s := Sweep(a, b.Orders(a.side.Opposite()));
    (if s.agg.size > 0 then [Report(s.agg, OrderAccepted)] else []) + BBO(b, Matched(b, a).book)
  }

  lemma AcceptedStep(w: World, o: Order)
    requires o.price != 0 && 0 < w.book.top < MAX_ORDERS
    ensures var a := Incoming(w.book.top, o);
      var s := Sweep(a, w.book.Orders(o.side.Opposite()));
      Step(w, NewOrder(o)) ==
        World(Matched(w.book, a).book, w.orders[a.id := o], (w.events + s.events) + Closing(w.book, a))
  {
    var a := Incoming(w.book.top, o);
    var s := Sweep(a, w.book.Orders(o.side.Opposite()));
    var last := if s.agg.size > 0 then [Report(s.agg, OrderAccepted)] else [];
    var bbo := BBO(w.book, Matched(w.book, a).book);
    assert Matched(w.book, a).events == s.events + last;
    Assoc(s.events, last, bbo);
    Assoc(w.events, s.events, last + bbo);
  }

  // Reporting an order's fills once more, or a change of the top, adds no new report.
  lemma EchoThenBBO(events: seq<Event>, agg: Entry, before: Book, after: Book)
    requires Reported(events, agg.id) == agg.fills
    ensures var last := if agg.size > 0 then [Report(agg, OrderAccepted)] else [];
      SameReports(events, events + (last + BBO(before, after)))
  {
    var last := if agg.size > 0 then [Report(agg, OrderAccepted)] else [];
    assert SameReports(events, events + last) by {
      if agg.size > 0 {
        EchoSame(events, last[0]);
      } else {
        assert events + last == events;
      }
    }
    BBOSame(events + last, before, after);
    SameTransitive(events, events + last, (events + last) + BBO(before, after));
    Assoc(events, last, BBO(before, after));
  }

  lemma ClosingSame(w: World, o: Order)
    requires Consistent(w) && o.price != 0
    ensures var a := Incoming(w.book.top, o);
      var s := Sweep(a, w.book.Orders(o.side.Opposite()));
      SameReports(w.events + s.events, (w.events + s.events) + Closing(w.book, a))
  {
    var a := Incoming(w.book.top, o);
    var s := Sweep(a, w.book.Orders(o.side.Opposite()));
    SweepSound(w, o);
    EchoThenBBO(w.events + s.events, s.agg, w.book, Matched(w.book, a).book);
  }

  lemma {:induction false} AcceptConsistent(w: World, o: Order)
    requires Consistent(w) && o.price != 0 && w.book.top < MAX_ORDERS
    ensures Consistent(Step(w, NewOrder(o)))
  {
    var a := Incoming(w.book.top, o);
    var s := Sweep(a, w.book.Orders(o.side.Opposite()));
    SweepEnds(w, o);
    ClosingSame(w, o);
    SameConsistent(World(Matched(w.book, a).book, w.orders[a.id := o], w.events + s.events),
                   (w.events + s.events) + Closing(w.book, a));
    AcceptedStep(w, o);
  }

  // ---------------------------------------------------------------- cancelling

  lemma {:induction false} RemoveHas(es: seq<Entry>, id: nat, x: nat)
    ensures Has(Remove(es, id), x) <==> Has(es, x) && x != id
  {
    RemoveMembers(es, id);
    if es != [] {
      RemoveHas(es[1..], id, x);
      assert forall i :: 0 <= i < |es[1..]| ==> es[1..][i] == es[i + 1];
      if Has(es, x) && x != id && es[0].id != x {
        assert Has(es[1..], x);
        var i :| 0 <= i < |Remove(es[1..], id)| && Remove(es[1..], id)[i].id == x;
        assert es[0].id != id ==> Remove(es, id)[i + 1].id == x;
      } else if Has(es, x) && x != id {
        assert Remove(es, id)[0].id == x;
      }
    }
  }

  lemma RemoveTracked(orders: map<nat, Order>, events: seq<Event>, es: seq<Entry>, id: nat)
    requires AllTracked(orders, events, es)
    ensures AllTracked(orders, events, Remove(es, id))
  {
    RemoveMembers(es, id);
  }

  lemma CancelledStep(w: World, id: nat)
    requires 0 < id < w.book.top && Has(w.book.bids + w.book.asks, id)
    ensures var ev := Report(Find(w.book.bids + w.book.asks, id), OrderCancelled);
      var b' := Book(Remove(w.book.bids, id), Remove(w.book.asks, id), w.book.top);
      Step(w, CancelOrder(id)) == World(b', w.orders, (w.events + [ev]) + BBO(w.book, b'))
  {
    var ev := Report(Find(w.book.bids + w.book.asks, id), OrderCancelled);
    Assoc(w.events, [ev], BBO(w.book, Book(Remove(w.book.bids, id), Remove(w.book.asks, id), w.book.top)));
  }

  // Taking a cancelled order off the book.
  lemma RemovedConsistent(w: World, id: nat)
    requires Consistent(w) && id in w.orders && Cancelled(w.orders, w.events, id)
    ensures Consistent(w.(book := Book(Remove(w.book.bids, id), Remove(w.book.asks, id), w.book.top)))
  {
    var b' := Book(Remove(w.book.bids, id), Remove(w.book.asks, id), w.book.top);
    CancelOk(w.book, id);
    RemoveTracked(w.orders, w.events, w.book.bids, id);
    RemoveTracked(w.orders, w.events, w.book.asks, id);
    forall x | x in w.orders ensures Has(b'.bids, x) || Has(b'.asks, x) || Settled(w.orders, w.events, x) {
      RemoveHas(w.book.bids, id, x);
      RemoveHas(w.book.asks, id, x);
    }
  }

  lemma CancelReported(w: World, id: nat)
    requires Consistent(w) && Has(w.book.bids + w.book.asks, id)
    ensures var ev := Report(Find(w.book.bids + w.book.asks, id), OrderCancelled);
      Consistent(w.(events := w.events + [ev])) && id in w.orders && Cancelled(w.orders, w.events + [ev], id)
  {
    var e := Find(w.book.bids + w.book.asks, id);
    var ev := Report(e, OrderCancelled);
    assert Tracks(w.orders, w.events, e);
    EchoSame(w.events, ev);
    SameConsistent(w, w.events + [ev]);
    ReportedLast(w.events, ev, id);
    assert CancelReport(w.orders, w.events + [ev], id, |w.events|);
  }

  lemma {:induction false} CancelConsistent(w: World, id: nat)
    requires Consistent(w) && 0 < id < w.book.top && Has(w.book.bids + w.book.asks, id)
    ensures Consistent(Step(w, CancelOrder(id)))
  {
    var events := w.events + [Report(Find(w.book.bids + w.book.asks, id), OrderCancelled)];
    var b' := Book(Remove(w.book.bids, id), Remove(w.book.asks, id), w.book.top);
    CancelReported(w, id);
    RemovedConsistent(w.(events := events), id);
    BBOSame(events, w.book, b');
    SameConsistent(World(b', w.orders, events), events + BBO(w.book, b'));
    CancelledStep(w, id);
  }

  // ---------------------------------------------------------------- whole runs

  lemma {:induction false} StepConsistent(w: World, c: Command)
    requires Consistent(w)
    ensures Consistent(Step(w, c))
  {
    var out := Execute(w.book, c);
    if c.NewOrder? && c.order.price != 0 && w.book.top < MAX_ORDERS {
      AcceptConsistent(w, c.order);
    } else if c.CancelOrder? && 0 < c.id < w.book.top && Has(w.book.bids + w.book.asks, c.id) {
      CancelConsistent(w, c.id);
    } else {
      assert out.book == w.book && |out.events| == 1 && Step(w, c) == w.(events := w.events + [out.events[0]]);
      EchoSame(w.events, out.events[0]);
      SameConsistent(w, w.events + [out.events[0]]);
    }
  }

  // In every run from the empty book: every fill has exactly one counterpart of equal price and
  // quantity, two orders trade at most once, fills lie inside both limits, and every order's
  // reported fills plus what still rests account for its whole size.
  lemma {:induction false} RunConsistent(cmds: seq<Command>)
    ensures Consistent(Run(cmds))
  {
    if cmds != [] {
      RunConsistent(cmds[..|cmds| - 1]);
      StepConsistent(Run(cmds[..|cmds| - 1]), cmds[|cmds| - 1]);
    }
  }

  // ---------------------------------------------------------------- one counterpart per fill

  lemma {:induction false} TermsOfFill(ms: seq<Match>, i: int)
    requires 0 <= i < |ms|
    ensures (ms[i].price, ms[i].qty) in Terms(ms, ms[i].orderId)
  {
    var n := |ms| - 1;
    if i < n {
      TermsOfFill(ms[..n], i);
    }
  }

  lemma {:induction false} FillOfTerm(ms: seq<Match>, id: nat, k: int) returns (i: int)
    requires 0 <= k < |Terms(ms, id)|
    ensures 0 <= i < |ms| && ms[i].orderId == id && (ms[i].price, ms[i].qty) == Terms(ms, id)[k]
  {
    var n := |ms| - 1;
    if k < |Terms(ms[..n], id)| {
      i := FillOfTerm(ms[..n], id, k);
    } else {
      i := n;
    }
  }

  lemma {:induction false} OneTermOneFill(ms: seq<Match>, id: nat, i: int, j: int)
    requires 0 <= i < j < |ms| && ms[i].orderId == ms[j].orderId == id
    ensures |Terms(ms, id)| >= 2
  {
    var n := |ms| - 1;
    if j < n {
      OneTermOneFill(ms[..n], id, i, j);
    } else {
      TermsOfFill(ms[..n], i);
    }
  }

  lemma OneCounterpart(ours: seq<Match>, theirs: seq<Match>, x: nat, i: int) returns (j: int)
    requires 0 <= i < |ours|
    requires Terms(ours, ours[i].orderId) == Terms(theirs, x) && |Terms(theirs, x)| <= 1
    ensures 0 <= j < |theirs| && theirs[j].orderId == x && theirs[j].price == ours[i].price
      && theirs[j].qty == ours[i].qty
    ensures forall k :: 0 <= k < |theirs| && theirs[k].orderId == x ==> k == j
  {
    TermsOfFill(ours, i);
    j := FillOfTerm(theirs, x, 0);
    forall k | 0 <= k < |theirs| && theirs[k].orderId == x ensures k == j {
      if k < j {
        OneTermOneFill(theirs, x, k, j);
      } else if j < k {
        OneTermOneFill(theirs, x, j, k);
      }
    }
  }

  // In every run: each fill an order reports has exactly one counterpart among the fills of the
  // other order, with the same price and quantity.
  lemma {:induction false} EveryFillHasOneCounterpart(cmds: seq<Command>, x: nat, i: int) returns (j: int)
    requires 0 <= i < |Reported(Run(cmds).events, x)|
    ensures var m := Reported(Run(cmds).events, x)[i];
      var theirs := Reported(Run(cmds).events, m.orderId);
      && 0 <= j < |theirs| && theirs[j].orderId == x && theirs[j].price == m.price && theirs[j].qty == m.qty
      && forall k :: 0 <= k < |theirs| && theirs[k].orderId == x ==> k == j
  {
    var ours := Reported(Run(cmds).events, x);
    var theirs := Reported(Run(cmds).events, ours[i].orderId);
    assert Terms(ours, ours[i].orderId) == Terms(theirs, x) && |Terms(theirs, x)| <= 1 by {
      RunConsistent(cmds);
      assert Terms(ours, ours[i].orderId) == Terms(theirs, x);
    }
    j := OneCounterpart(ours, theirs, x, i);
  }

  // ---------------------------------------------------------------- total bought is total sold

  // What the orders of one side with ids below `n` report as filled.
  function Total(orders: map<nat, Order>, events: seq<Event>, side: Side, n: nat): nat {
    if n == 0 then 0
    else Total(orders, events, side, n - 1)
         + if n - 1 in orders && orders[n - 1].side == side then Qty(Reported(events, n - 1)) else 0
  }

  lemma QtyAfterTrade(events: seq<Event>, a: Entry, e: Entry, price: nat, qty: nat, id: nat)
    requires a.id != e.id && qty <= a.size && qty <= e.size
    requires Reported(events, a.id) == a.fills && Reported(events, e.id) == e.fills
    ensures Qty(Reported(events + TradeNow(a, e, price, qty), id)) ==
      Qty(Reported(events, id)) + if id == a.id || id == e.id then qty else 0
  {
    TradeReports(events, Traded(a, e, price, qty), Traded(e, a, price, qty), id);
    QtyLast(a.fills, Match(e.id, TraderStr(e.trader), price, qty));
    QtyLast(e.fills, Match(a.id, TraderStr(a.trader), price, qty));
  }

  lemma {:induction false} TotalAfterTrade(orders: map<nat, Order>, events: seq<Event>, a: Entry, e: Entry, price: nat,
                                           qty: nat, side: Side, n: nat)
    requires a.id != e.id && qty <= a.size && qty <= e.size
    requires Tracks(orders, events, a) && Tracks(orders, events, e)
    ensures Total(orders, events + TradeNow(a, e, price, qty), side, n) == Total(orders, events, side, n)
      + (if a.id < n && a.side == side then qty else 0) + (if e.id < n && e.side == side then qty else 0)
  {
    if n > 0 {
      TotalAfterTrade(orders, events, a, e, price, qty, side, n - 1);
      QtyAfterTrade(events, a, e, price, qty, n - 1);
    }
  }

  predicate Balanced(orders: map<nat, Order>, events: seq<Event>, n: nat) {
    Total(orders, events, Buy, n) == Total(orders, events, Sell, n)
  }

  lemma {:induction false} SweepBalanced(orders: map<nat, Order>, events: seq<Event>, a: Entry, opp: seq<Entry>,
                                         own: seq<Entry>, n: nat)
    requires Sweeping(orders, events, a, opp, own) && Balanced(orders, events, n)
    requires forall id :: id in orders ==> id < n
    ensures Balanced(orders, events + Sweep(a, opp).events, n)
    decreases |opp| + a.size
  {
    if a.size == 0 || opp == [] || !Crosses(a, opp[0]) {
      assert events + [] == events;
    } else {
      var now := TradeOnce(a, opp);
      TradeBalanced(orders, events, a, opp, own, n);
      SweepingStep(orders, events, a, opp, own);
      SweepBalanced(orders, events + now.events, now.agg, now.rest, own, n);
      Assoc(events, now.events, Sweep(now.agg, now.rest).events);
    }
  }

  lemma TradeBalanced(orders: map<nat, Order>, events: seq<Event>, a: Entry, opp: seq<Entry>, own: seq<Entry>, n: nat)
    requires Sweeping(orders, events, a, opp, own) && Balanced(orders, events, n) && opp != []
    requires forall id :: id in orders ==> id < n
    ensures Balanced(orders, events + TradeOnce(a, opp).events, n)
  {
    var e := opp[0];
    var qty := Min(a.size, e.size);
    assert Untraded(a, e) && Tracks(orders, events, e);
    TotalAfterTrade(orders, events, a, e, e.price, qty, Buy, n);
    TotalAfterTrade(orders, events, a, e, e.price, qty, Sell, n);
  }

  lemma {:induction false} SameTotal(orders: map<nat, Order>, events: seq<Event>, events': seq<Event>, side: Side,
                                     n: nat)
    requires SameReports(events, events')
    ensures Total(orders, events', side, n) == Total(orders, events, side, n)
  {
    if n > 0 {
      SameTotal(orders, events, events', side, n - 1);
    }
  }

  lemma SameBalanced(orders: map<nat, Order>, events: seq<Event>, events': seq<Event>, n: nat)
    requires SameReports(events, events') && Balanced(orders, events, n)
    ensures Balanced(orders, events', n)
  {
    SameTotal(orders, events, events', Buy, n);
    SameTotal(orders, events, events', Sell, n);
  }

  lemma {:induction false} TotalBefore(orders: map<nat, Order>, events: seq<Event>, id: nat, o: Order, side: Side,
                                       n: nat)
    requires n <= id
    ensures Total(orders[id := o], events, side, n) == Total(orders, events, side, n)
  {
    if n > 0 {
      TotalBefore(orders, events, id, o, side, n - 1);
    }
  }

  lemma StepBalanced(w: World, c: Command)
    requires Consistent(w) && Balanced(w.orders, w.events, w.book.top)
    ensures Balanced(Step(w, c).orders, Step(w, c).events, Step(w, c).book.top)
  {
    var out := Execute(w.book, c);
    if c.NewOrder? && c.order.price != 0 && w.book.top < MAX_ORDERS {
      ClosedBalanced(w, c.order);
      AcceptBalanced(w, c.order);
    } else if c.CancelOrder? && 0 < c.id < w.book.top && Has(w.book.bids + w.book.asks, c.id) {
      CancelBalanced(w, c.id);
    } else {
      assert out.book == w.book && |out.events| == 1 && Step(w, c) == w.(events := w.events + [out.events[0]]);
      EchoSame(w.events, out.events[0]);
      SameBalanced(w.orders, w.events, w.events + [out.events[0]], w.book.top);
    }
  }

  lemma NewOrderBalanced(w: World, o: Order)
    requires Consistent(w) && Balanced(w.orders, w.events, w.book.top)
    ensures Balanced(w.orders[w.book.top := o], w.events, w.book.top + 1)
  {
    var id := w.book.top;
    UnknownSilent(w.orders, w.events, id);
    TotalBefore(w.orders, w.events, id, o, Buy, id);
    TotalBefore(w.orders, w.events, id, o, Sell, id);
  }

  lemma SweptBalanced(w: World, o: Order)
    requires Consistent(w) && Balanced(w.orders, w.events, w.book.top) && o.price != 0
    ensures var a := Incoming(w.book.top, o);
      Balanced(w.orders[a.id := o], w.events + Sweep(a, w.book.Orders(o.side.Opposite())).events, w.book.top + 1)
  {
    var a := Incoming(w.book.top, o);
    NewOrderBalanced(w, o);
    SweepStarts(w, o);
    SweepBalanced(w.orders[a.id := o], w.events, a, w.book.Orders(o.side.Opposite()), w.book.Orders(o.side),
                  w.book.top + 1);
  }

  lemma ClosedBalanced(w: World, o: Order)
    requires Consistent(w) && Balanced(w.orders, w.events, w.book.top) && o.price != 0
    ensures var a := Incoming(w.book.top, o);
      var events := w.events + Sweep(a, w.book.Orders(o.side.Opposite())).events;
      Balanced(w.orders[a.id := o], events + Closing(w.book, a), w.book.top + 1)
  {
    var a := Incoming(w.book.top, o);
    var events := w.events + Sweep(a, w.book.Orders(o.side.Opposite())).events;
    SweptBalanced(w, o);
    ClosingSame(w, o);
    SameBalanced(w.orders[a.id := o], events, events + Closing(w.book, a), w.book.top + 1);
  }

  lemma AcceptedParts(w: World, o: Order)
    requires o.price != 0 && 0 < w.book.top < MAX_ORDERS
    ensures var a := Incoming(w.book.top, o);
      var w' := Step(w, NewOrder(o));
      && w'.orders == w.orders[a.id := o] && w'.book.top == w.book.top + 1
      && w'.events == w.events + Sweep(a, w.book.Orders(o.side.Opposite())).events + Closing(w.book, a)
  {
    AcceptedStep(w, o);
  }

  lemma AcceptBalanced(w: World, o: Order)
    requires o.price != 0 && 0 < w.book.top < MAX_ORDERS
    requires var a := Incoming(w.book.top, o);
      var events := w.events + Sweep(a, w.book.Orders(o.side.Opposite())).events;
      Balanced(w.orders[a.id := o], events + Closing(w.book, a), w.book.top + 1)
    ensures var w' := Step(w, NewOrder(o));
      Balanced(w'.orders, w'.events, w'.book.top)
  {
    AcceptedParts(w, o);
  }

  lemma CancelBalanced(w: World, id: nat)
    requires Consistent(w) && Balanced(w.orders, w.events, w.book.top)
    requires 0 < id < w.book.top && Has(w.book.bids + w.book.asks, id)
    ensures var w' := Step(w, CancelOrder(id));
      Balanced(w'.orders, w'.events, w'.book.top)
  {
    var e := Find(w.book.bids + w.book.asks, id);
    var b' := Book(Remove(w.book.bids, id), Remove(w.book.asks, id), w.book.top);
    var events := w.events + [Report(e, OrderCancelled)];
    CancelledStep(w, id);
    assert Tracks(w.orders, w.events, e);
    EchoSame(w.events, Report(e, OrderCancelled));
    BBOSame(events, w.book, b');
    SameTransitive(w.events, events, events + BBO(w.book, b'));
    SameBalanced(w.orders, w.events, events + BBO(w.book, b'), w.book.top);
  }

  // In every run the quantity reported bought equals the quantity reported sold.
  lemma {:induction false} BoughtIsSold(cmds: seq<Command>)
    ensures var w := Run(cmds);
      Total(w.orders, w.events, Buy, w.book.top) == Total(w.orders, w.events, Sell, w.book.top)
  {
    if cmds != [] {
      BoughtIsSold(cmds[..|cmds| - 1]);
      RunConsistent(cmds[..|cmds| - 1]);
      StepBalanced(Run(cmds[..|cmds| - 1]), cmds[|cmds| - 1]);
    } else {
      assert Total(map[], [], Buy, 0) == Total(map[], [], Sell, 0);
    }
  }
}
