/** What submitting and cancelling an order means for its sender and for everybody else. */
module OrderOutcomes {
  import opened EngineTypes
  import opened PriceTime
  import opened BookFacts
  import opened PriorityRule
  import opened TradeHistory

  // ---------------------------------------------------------------- the reports of a sweep

  // What the first `i` orders of the list and the next one have given.
  function FilledBy(agg: Entry, opp: seq<Entry>, i: int): nat
    requires 0 <= i < |opp|
  {
    SizeSum(opp[..i]) + Share(agg, opp, i)
  }

  // The two reports of the `i`-th trade, the resting order's first: each shows the trade as its last
  // fill and what is left of its order.
  predicate ReportsTrade(agg: Entry, opp: seq<Entry>, fills: seq<Match>, rest: Event, own: Event, i: int)
    requires 0 <= i < |opp|
  {
    var e, q := opp[i], Share(agg, opp, i);
    && q <= e.size && FilledBy(agg, opp, i) <= agg.size && |agg.fills| + i < |fills|
    && rest == OrderEvent(e.id, TraderStr(e.trader), OrderFilled, e.qtyFilled + q, e.size - q,
                          e.fills + [Match(agg.id, TraderStr(agg.trader), e.price, q)], Unspecified)
    && own == OrderEvent(agg.id, TraderStr(agg.trader), OrderFilled, agg.qtyFilled + FilledBy(agg, opp, i),
                         agg.size - FilledBy(agg, opp, i), fills[..|agg.fills| + i + 1], Unspecified)
  }

  ghost predicate ReportsInOrder(agg: Entry, opp: seq<Entry>, s: Swept) {
    && |agg.fills| <= |s.agg.fills| && |s.agg.fills| - |agg.fills| <= |opp|
    && |s.events| == 2 * (|s.agg.fills| - |agg.fills|)
    && forall i :: 0 <= i < |s.agg.fills| - |agg.fills| ==>
         ReportsTrade(agg, opp, s.agg.fills, s.events[2 * i], s.events[2 * i + 1], i)
  }

  lemma PartReports(agg: Entry, opp: seq<Entry>)
    requires opp != [] && Crosses(agg, opp[0]) && 0 < agg.size < opp[0].size
    ensures ReportsInOrder(agg, opp, Sweep(agg, opp))
  {
    var now := TradeOnce(agg, opp);
    var s := Sweep(agg, opp);
    assert Sweep(now.agg, now.rest) == Swept(now.agg, now.rest, []);
    assert s.events == now.events + [] == now.events;
    ShareHere(agg, opp);
    assert SizeSum(opp[..0]) == 0;
    assert s.agg.fills[..|agg.fills| + 1] == s.agg.fills;
  }

  // The first trade of a sweep that goes on.
  lemma FirstReports(agg: Entry, opp: seq<Entry>, fills: seq<Match>)
    requires opp != [] && Crosses(agg, opp[0]) && 0 < opp[0].size <= agg.size
    requires TradeOnce(agg, opp).agg.fills <= fills
    ensures var now := TradeOnce(agg, opp).events;
      ReportsTrade(agg, opp, fills, now[0], now[1], 0)
  {
    ShareHere(agg, opp);
    assert SizeSum(opp[..0]) == 0;
    var now := TradeOnce(agg, opp);
    assert fills[..|agg.fills| + 1] == now.agg.fills;
  }

  lemma FilledShift(agg: Entry, opp: seq<Entry>, agg': Entry, i: int)
    requires opp != [] && 0 < i < |opp| && opp[0].size <= agg.size
    requires agg'.size == agg.size - opp[0].size && agg'.price == agg.price && agg'.side == agg.side
    ensures FilledBy(agg, opp, i) == opp[0].size + FilledBy(agg', opp[1..], i - 1)
  {
    ShareShift(agg, opp, agg', i);
    assert opp[..i][0] == opp[0] && opp[..i][1..] == opp[1..][..i - 1];
  }

  // The later trades are those of the smaller order.
  lemma LaterReports(agg: Entry, opp: seq<Entry>, fills: seq<Match>, rest: Event, own: Event, i: int)
    requires opp != [] && 0 < i < |opp| && opp[0].size <= agg.size
    requires ReportsTrade(Traded(agg, opp[0], opp[0].price, opp[0].size), opp[1..], fills, rest, own, i - 1)
    ensures ReportsTrade(agg, opp, fills, rest, own, i)
  {
    var agg' := Traded(agg, opp[0], opp[0].price, opp[0].size);
    ShareShift(agg, opp, agg', i);
    FilledShift(agg, opp, agg', i);
  }

  lemma FullReports(agg: Entry, opp: seq<Entry>, later: Swept)
    requires opp != [] && Crosses(agg, opp[0]) && 0 < opp[0].size <= agg.size
    requires var agg' := Traded(agg, opp[0], opp[0].price, opp[0].size);
      ReportsInOrder(agg', opp[1..], later) && agg'.fills <= later.agg.fills
    ensures ReportsInOrder(agg, opp, Swept(later.agg, later.rest, TradeOnce(agg, opp).events + later.events))
  {
    var agg' := Traded(agg, opp[0], opp[0].price, opp[0].size);
    var now := TradeOnce(agg, opp);
    var s := Swept(later.agg, later.rest, now.events + later.events);
    forall i | 0 <= i < |s.agg.fills| - |agg.fills|
      ensures ReportsTrade(agg, opp, s.agg.fills, s.events[2 * i], s.events[2 * i + 1], i)
    {
      if i == 0 {
        FirstReports(agg, opp, s.agg.fills);
      } else {
        assert s.events[2 * i] == later.events[2 * (i - 1)] && s.events[2 * i + 1] == later.events[2 * (i - 1) + 1];
        LaterReports(agg, opp, s.agg.fills, s.events[2 * i], s.events[2 * i + 1], i);
      }
    }
  }

  // Every trade of a sweep is reported twice, in the order of the list, to the resting order and to
  // the incoming one.
  lemma {:induction false} SweepReportsInOrder(agg: Entry, opp: seq<Entry>)
    requires CrossingFirst(agg, opp)
    ensures ReportsInOrder(agg, opp, Sweep(agg, opp))
    decreases |opp|
  {
    if agg.size == 0 || opp == [] || !Crosses(agg, opp[0]) {
    } else if agg.size < opp[0].size {
      PartReports(agg, opp);
    } else {
      var agg' := Traded(agg, opp[0], opp[0].price, opp[0].size);
      SweepReportsInOrder(agg', opp[1..]);
      SweepByPriority(agg', opp[1..]);
      FullReports(agg, opp, Sweep(agg', opp[1..]));
      FullIs(agg, opp);
    }
  }

  lemma FullIs(agg: Entry, opp: seq<Entry>)
    requires opp != [] && Crosses(agg, opp[0]) && 0 < opp[0].size <= agg.size
    ensures var later := Sweep(Traded(agg, opp[0], opp[0].price, opp[0].size), opp[1..]);
      Sweep(agg, opp) == Swept(later.agg, later.rest, TradeOnce(agg, opp).events + later.events)
  {
    var now := TradeOnce(agg, opp);
    assert now.rest == [] + opp[1..] == opp[1..];
    assert now.agg == Traded(agg, opp[0], opp[0].price, opp[0].size);
  }

  // ---------------------------------------------------------------- a submitted order

  // An order is refused if and only if it has no price or no id is left; nothing changes then, and
  // the only report says which.
  lemma RefusedIff(b: Book, o: Order)
    requires WellFormed(b)
    ensures var out := Limit(b, o);
      && (out.id == 0 <==> o.price == 0 || b.top == 0x10_0000)
      && var reason := if o.price == 0 then Unspecified else PoolExhausted;
         out.id == NONE ==>
           out.book == b && out.events == [OrderEvent(NONE, TraderStr(o.trader), OrderRejected, 0, 0, [], reason)]
  {
  }

  // `e` is the order `o` under an id, with part of it filled.
  predicate OrderIs(e: Entry, id: nat, o: Order) {
    e.id == id && e.trader == o.trader && e.price == o.price && e.side == o.side && e.size + e.qtyFilled == o.size
  }

  // A price the sender of an order agrees to.
  predicate Agreed(o: Order, price: nat) { if o.side.Buy? then price <= o.price else o.price <= price }

  // The reports of an accepted order: its trades in order, the acceptance of a remainder, the top.
  ghost predicate ReportsOrder(b: Book, o: Order, e: Entry, events: seq<Event>, offers: seq<Event>) {
    var start, opp, n := Entry(b.top, o.trader, o.price, o.size, o.side, 0, []), b.Orders(o.side.Opposite()), |e.fills|;
    && n <= |opp| && 2 * n <= |events| && e.size <= o.size
    && (forall i :: 0 <= i < n ==> ReportsTrade(start, opp, e.fills, events[2 * i], events[2 * i + 1], i))
    && events[2 * n..] ==
         (if e.size > 0 then
            [OrderEvent(b.top, TraderStr(o.trader), OrderAccepted, o.size - e.size, e.size, e.fills, Unspecified)]
          else []) + offers
  }

  // What an accepted order leaves: it takes the next id, trades as far as it agrees with anything
  // that rests, and a remainder rests on its own side; the other side only loses from its front.
  ghost predicate Settles(b: Book, o: Order, e: Entry, b': Book) {
    var own, opp := b.Orders(o.side), b.Orders(o.side.Opposite());
    && OrderIs(e, b.top, o) && b'.top == b.top + 1
    && e.size + Min(o.size, CrossingSize(e, opp)) == o.size
    && Qty(e.fills) == e.qtyFilled && (forall i :: 0 <= i < |e.fills| ==> Agreed(o, e.fills[i].price))
    && Leftover(opp, b'.Orders(o.side.Opposite()))
    && (if e.size > 0 then multiset(b'.Orders(o.side)) == multiset(own) + multiset{e} else b'.Orders(o.side) == own)
  }

  lemma SweptAgrees(agg: Entry, opp: seq<Entry>, o: Order, i: int)
    requires CrossingFirst(agg, opp) && agg.fills == [] && agg.price == o.price && agg.side == o.side
    requires 0 <= i < |Sweep(agg, opp).agg.fills|
    ensures Agreed(o, Sweep(agg, opp).agg.fills[i].price)
  {
    SweepByPriority(agg, opp);
    assert FillsByShare(agg, opp, Sweep(agg, opp).agg.fills, 0, i);
  }

  lemma {:induction false} SweptQty(agg: Entry, opp: seq<Entry>)
    requires Qty(agg.fills) == agg.qtyFilled
    ensures Qty(Sweep(agg, opp).agg.fills) == Sweep(agg, opp).agg.qtyFilled
    decreases |opp| + agg.size
  {
    if agg.size > 0 && opp != [] && Crosses(agg, opp[0]) {
      var e := opp[0];
      QtyLast(agg.fills, Match(e.id, TraderStr(e.trader), e.price, Min(agg.size, e.size)));
      SweptQty(TradeOnce(agg, opp).agg, TradeOnce(agg, opp).rest);
    }
  }

  lemma MatchedSettles(b: Book, o: Order)
    requires WellFormed(b) && o.price != 0 && b.top < MAX_ORDERS
    ensures var agg := Incoming(b.top, o);
      Settles(b, o, Sweep(agg, b.Orders(o.side.Opposite())).agg, Matched(b, agg).book)
  {
    var agg, opp := Incoming(b.top, o), b.Orders(o.side.Opposite());
    var s := Sweep(agg, opp);
    SweptSide(b, agg);
    SideCrossesFirst(b, agg);
    SweepByPriority(agg, opp);
    SweptQty(agg, opp);
    CrossingSame(agg, s.agg, opp);
    InsertMembers(b.Orders(o.side), s.agg);
    forall i | 0 <= i < |s.agg.fills| ensures Agreed(o, s.agg.fills[i].price) {
      SweptAgrees(agg, opp, o, i);
    }
  }

  lemma SweptReports(b: Book, o: Order, s: Swept, offers: seq<Event>)
    requires ReportsInOrder(Entry(b.top, o.trader, o.price, o.size, o.side, 0, []), b.Orders(o.side.Opposite()), s)
    requires OrderIs(s.agg, b.top, o)
    ensures ReportsOrder(b, o, s.agg, (s.events + RestReport(s.agg)) + offers, offers)
  {
    var start, opp := Entry(b.top, o.trader, o.price, o.size, o.side, 0, []), b.Orders(o.side.Opposite());
    var events := (s.events + RestReport(s.agg)) + offers;
    TailIs(s.events, RestReport(s.agg), offers);
    forall i | 0 <= i < |s.agg.fills|
      ensures ReportsTrade(start, opp, s.agg.fills, events[2 * i], events[2 * i + 1], i)
    {
      assert ReportsTrade(start, opp, s.agg.fills, s.events[2 * i], s.events[2 * i + 1], i);
    }
  }

  lemma MatchedReports(b: Book, o: Order)
    requires WellFormed(b) && o.price != 0 && b.top < MAX_ORDERS
    ensures var agg := Incoming(b.top, o);
      var offers := BBO(b, Matched(b, agg).book);
      ReportsOrder(b, o, Sweep(agg, b.Orders(o.side.Opposite())).agg, Matched(b, agg).events + offers, offers)
  {
    var agg, opp := Incoming(b.top, o), b.Orders(o.side.Opposite());
    SweptSide(b, agg);
    SideCrossesFirst(b, agg);
    SweepReportsInOrder(agg, opp);
    SweptReports(b, o, Sweep(agg, opp), BBO(b, Matched(b, agg).book));
    EventsOfMatch(b, agg);
  }

  lemma EventsOfMatch(b: Book, agg: Entry)
    ensures var s := Sweep(agg, b.Orders(agg.side.Opposite()));
      Matched(b, agg).events == s.events + RestReport(s.agg)
  {
    var s := Sweep(agg, b.Orders(agg.side.Opposite()));
    assert s.events + [] == s.events;
  }

  lemma TailIs(a: seq<Event>, b: seq<Event>, c: seq<Event>)
    ensures ((a + b) + c)[|a|..] == b + c
    ensures forall i :: 0 <= i < |a| ==> ((a + b) + c)[i] == a[i]
  {
  }

  lemma OrderIsAccepted(b: Book, o: Order) returns (e: Entry)
    requires WellFormed(b) && o.price != 0 && b.top < MAX_ORDERS
    ensures var out := Limit(b, o);
      out.id == b.top && Settles(b, o, e, out.book) && ReportsOrder(b, o, e, out.events, BBO(b, out.book))
  {
    e := Sweep(Incoming(b.top, o), b.Orders(o.side.Opposite())).agg;
    MatchedSettles(b, o);
    MatchedReports(b, o);
  }

  // ---------------------------------------------------------------- a cancelled order

  // `es'` is `es` without the order `id`, every other order as it was.
  ghost predicate Without(es: seq<Entry>, id: nat, es': seq<Entry>) {
    forall e :: e in es' <==> e in es && e.id != id
  }

  lemma {:induction false} RemoveIsWithout(es: seq<Entry>, id: nat)
    ensures Without(es, id, Remove(es, id))
  {
    if es != [] {
      RemoveIsWithout(es[1..], id);
      assert es == [es[0]] + es[1..];
    }
  }

  // After a cancel the order rests nowhere and every other order is as it was.
  lemma CancelRemoves(b: Book, id: nat)
    requires WellFormed(b)
    ensures var b' := Cancel(b, id).book;
      b'.top == b.top && Without(b.bids, id, b'.bids) && Without(b.asks, id, b'.asks)
  {
    RemoveIsWithout(b.bids, id);
    RemoveIsWithout(b.asks, id);
    var all := b.bids + b.asks;
    assert forall i :: 0 <= i < |b.bids| ==> EntryOk(b.bids[i], Buy, b.top);
    assert forall i :: 0 <= i < |b.asks| ==> EntryOk(b.asks[i], Sell, b.top);
    if !Has(all, id) {
      forall e | e in all ensures e.id != id {
        var i :| 0 <= i < |all| && all[i] == e;
      }
      assert forall e :: (e in b.bids ==> e in all) && (e in b.asks ==> e in all);
    }
  }

  // A resting order is reported with its fills and what was left of it.
  lemma CancelReportsOrder(b: Book, e: Entry)
    requires WellFormed(b) && e in b.bids + b.asks
    ensures var out := Cancel(b, e.id);
      var ev := OrderEvent(e.id, TraderStr(e.trader), OrderCancelled, e.qtyFilled, e.size, e.fills, Unspecified);
      out.events == [ev] + BBO(b, out.book)
  {
    var all := b.bids + b.asks;
    var i :| 0 <= i < |all| && all[i] == e;
    assert i < |b.bids| ==> EntryOk(b.bids[i], Buy, b.top);
    assert i >= |b.bids| ==> EntryOk(b.asks[i - |b.bids|], Sell, b.top);
    assert Has(all, e.id);
    OneOfEachId(b, e, Find(all, e.id));
  }

  // Any other cancel is refused, changes nothing, and says whether the id was ever given out.
  lemma CancelRefused(b: Book, id: nat)
    requires WellFormed(b) && forall e :: e in b.bids + b.asks ==> e.id != id
    ensures var out := Cancel(b, id);
      var reason := if 0 < id < b.top then AlreadyFilled else NotFound;
      out.book == b && out.events == [OrderEvent(id, [], OrderRejected, 0, 0, [], reason)]
  {
  }

  lemma OneOfEachId(b: Book, e: Entry, e': Entry)
    requires WellFormed(b) && e in b.bids + b.asks && e' in b.bids + b.asks && e.id == e'.id
    ensures e == e'
  {
  }
}
