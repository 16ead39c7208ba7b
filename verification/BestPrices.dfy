/** What a best-bid-offer event shows, said from the resting orders alone. */
module BestPrices {
  import opened EngineTypes
  import opened PriceTime
  import opened BookFacts

  // The orders of one price.
  function AtPrice(es: seq<Entry>, price: nat): seq<Entry> {
    if es == [] then [] else (if es[0].price == price then [es[0]] else []) + AtPrice(es[1..], price)
  }

  function Sizes(es: seq<Entry>): nat { if es == [] then 0 else es[0].size + Sizes(es[1..]) }

  // The highest price of any order, with all that rests at it, or nothing.
  predicate IsHighest(es: seq<Entry>, price: nat, qty: nat) {
    && (if es == [] then price == 0 else exists i :: 0 <= i < |es| && es[i].price == price)
    && (forall i :: 0 <= i < |es| ==> es[i].price <= price)
    && qty == Sizes(AtPrice(es, price))
  }

  predicate IsLowest(es: seq<Entry>, price: nat, qty: nat) {
    && (if es == [] then price == 0 else exists i :: 0 <= i < |es| && es[i].price == price)
    && (forall i :: 0 <= i < |es| ==> price <= es[i].price)
    && qty == Sizes(AtPrice(es, price))
  }

  // The true top of a book: the highest bid and the lowest ask.
  predicate IsTop(b: Book, t: Top) { IsHighest(b.bids, t.bid, t.bidQty) && IsLowest(b.asks, t.ask, t.askQty) }

  // A book has one top.
  lemma TopIsUnique(b: Book, t: Top, t': Top)
    requires IsTop(b, t) && IsTop(b, t')
    ensures t == t'
  {
  }

  lemma {:induction false} SumIsSizes(es: seq<Entry>, price: nat)
    ensures SumAt(es, price) == Sizes(AtPrice(es, price))
  {
    if es != [] {
      SumIsSizes(es[1..], price);
      var here := if es[0].price == price then [es[0]] else [];
      assert here != [] ==> (here + AtPrice(es[1..], price))[1..] == AtPrice(es[1..], price);
      assert here == [] ==> here + AtPrice(es[1..], price) == AtPrice(es[1..], price);
    }
  }

  // The first order of a side has its best price.
  lemma FirstIsBest(es: seq<Entry>, side: Side, top: nat, i: int)
    requires SideOk(es, side, top) && 0 <= i < |es|
    ensures if side.Buy? then es[i].price <= es[0].price else es[0].price <= es[i].price
  {
    assert EntryOk(es[i], side, top) && EntryOk(es[0], side, top);
    assert i > 0 ==> Before(es[0], es[i]);
  }

  lemma TopIsTrue(b: Book)
    requires WellFormed(b)
    ensures IsTop(b, TopOf(b))
  {
    SumIsSizes(b.bids, TopPrice(b.bids));
    SumIsSizes(b.asks, TopPrice(b.asks));
    forall i | 0 <= i < |b.bids| ensures b.bids[i].price <= TopPrice(b.bids) {
      FirstIsBest(b.bids, Buy, b.top, i);
    }
    forall i | 0 <= i < |b.asks| ensures TopPrice(b.asks) <= b.asks[i].price {
      FirstIsBest(b.asks, Sell, b.top, i);
    }
  }

  // The best-bid-offer events among the reports of a command.
  function Offers(events: seq<Event>): seq<Event> {
    if events == [] then []
    else (if events[0].BBOEvent? then [events[0]] else []) + Offers(events[1..])
  }

  lemma {:induction false} OffersJoin(a: seq<Event>, b: seq<Event>)
    ensures Offers(a + b) == Offers(a) + Offers(b)
  {
    if a == [] {
      assert a + b == b;
    } else {
      assert (a + b)[1..] == a[1..] + b;
      OffersJoin(a[1..], b);
    }
  }

  lemma {:induction false} SweepOffersNothing(agg: Entry, opp: seq<Entry>)
    ensures Offers(Sweep(agg, opp).events) == []
    decreases |opp| + agg.size
  {
    if agg.size > 0 && opp != [] && Crosses(agg, opp[0]) {
      var now := TradeOnce(agg, opp);
      SweepOffersNothing(now.agg, now.rest);
      OffersJoin(now.events, Sweep(now.agg, now.rest).events);
      assert now.events == [now.events[0]] + [now.events[1]];
      OffersJoin([now.events[0]], [now.events[1]]);
    }
  }

  lemma LimitOffers(b: Book, o: Order)
    requires 0 < b.top
    ensures Offers(Limit(b, o).events) == if Limit(b, o).id == NONE then [] else BBO(b, Limit(b, o).book)
  {
    if o.price != 0 && b.top < MAX_ORDERS {
      var agg := Incoming(b.top, o);
      var s := Sweep(agg, b.Orders(o.side.Opposite()));
      var m := Matched(b, agg);
      SweepOffersNothing(agg, b.Orders(o.side.Opposite()));
      OffersJoin(s.events, RestReport(s.agg));
      assert m.events == s.events + RestReport(s.agg);
      OffersJoin(m.events, BBO(b, m.book));
      assert Offers(BBO(b, m.book)) == BBO(b, m.book);
    }
  }

  lemma CancelOffers(b: Book, id: nat)
    ensures Offers(Cancel(b, id).events) == BBO(b, Cancel(b, id).book)
  {
    if id != NONE && id < b.top && Has(b.bids + b.asks, id) {
      var ev := Report(Find(b.bids + b.asks, id), OrderCancelled);
      OffersJoin([ev], BBO(b, Cancel(b, id).book));
      assert Offers(BBO(b, Cancel(b, id).book)) == BBO(b, Cancel(b, id).book);
    }
  }

  // Every command reports the top of the book it leaves, in 32 bits, if and only if that is not the
  // top it found; and at most once.
  lemma OfferIsTrueIff(b: Book, c: Command, before: Top, after: Top)
    requires WellFormed(b) && IsTop(b, before) && IsTop(Execute(b, c).book, after)
    ensures Offers(Execute(b, c).events) ==
      if before == after then [] else [BBOEvent(after.bid, after.bidQty % 0x1_0000_0000, after.ask,
        after.askQty % 0x1_0000_0000)]
  {
    var b' := Execute(b, c).book;
    ExecuteKeepsWellFormed(b, c);
    TopIsTrue(b);
    TopIsTrue(b');
    TopIsUnique(b, before, TopOf(b));
    TopIsUnique(b', after, TopOf(b'));
    match c
    case NewOrder(o) => LimitOffers(b, o);
    case CancelOrder(id) => CancelOffers(b, id);
  }
}
