/** What a message of the log does, said of its own fields. */
module MessageOutcomes {
  import opened EngineTypes
  import opened PriceTime
  import opened MarketLog
  import opened OrderOutcomes

  // The order a message asks for: its side and size, its price in 16 bits, and the first eight bytes
  // of its name, padded with zeros.
  predicate Requested(o: Order, body: Body) {
    && body.SubmitOrder?
    && o.side == body.side && o.size == body.size && o.price == body.price % 65536
    && |o.trader| == 8
    && forall i :: 0 <= i < 8 ==> o.trader[i] == if i < |body.trader| then body.trader[i] else 0
  }

  lemma BookIsSound(books: Books, symbol: string)
    requires Sound(books)
    ensures WellFormed(BookOf(books, symbol))
  {
  }

  // A submitted order is refused for want of a price or an id, or settles on its symbol's book and is
  // reported, as the order it asks for.
  lemma SubmitOutcome(books: Books, m: Message) returns (o: Order, e: Entry)
    requires Sound(books) && m.body.SubmitOrder?
    ensures Requested(o, m.body)
    ensures var b, out := BookOf(books, m.symbol), Process(books, m);
      var b' := BookOf(out.books, m.symbol);
      if o.price == 0 || b.top == MAX_ORDERS then
        var reason := if o.price == 0 then Unspecified else PoolExhausted;
        b' == b && out.events == [OrderEvent(NONE, TraderStr(o.trader), OrderRejected, 0, 0, [], reason)]
      else
        Settles(b, o, e, b') && ReportsOrder(b, o, e, out.events, BBO(b, b'))
  {
    var b := BookOf(books, m.symbol);
    BookIsSound(books, m.symbol);
    o := CommandOf(m.body).order;
    RefusedIff(b, o);
    if o.price != 0 && b.top != MAX_ORDERS {
      e := OrderIsAccepted(b, o);
    } else {
      e := Entry(NONE, [], 0, 0, Buy, 0, []);
    }
  }

  // After a cancel request the order rests nowhere on its symbol's book, and the others are as they
  // were.
  lemma CancelOutcome(books: Books, m: Message)
    requires Sound(books) && m.body.CancelRequest?
    ensures var b, b' := BookOf(books, m.symbol), BookOf(Process(books, m).books, m.symbol);
      && b'.top == b.top
      && Without(b.bids, m.body.orderId, b'.bids) && Without(b.asks, m.body.orderId, b'.asks)
  {
    BookIsSound(books, m.symbol);
    CancelRemoves(BookOf(books, m.symbol), m.body.orderId);
  }

  // ... and it is answered with the cancelled order, or with why there is none.
  lemma CancelAnswer(books: Books, m: Message, e: Entry)
    requires Sound(books) && m.body.CancelRequest?
    ensures var b, out := BookOf(books, m.symbol), Process(books, m);
      var b' := BookOf(out.books, m.symbol);
      var id, all := m.body.orderId, b.bids + b.asks;
      var cancelled := OrderEvent(id, TraderStr(e.trader), OrderCancelled, e.qtyFilled, e.size, e.fills, Unspecified);
      var reason := if 0 < id < b.top then AlreadyFilled else NotFound;
      && (e in all && e.id == id ==> out.events == [cancelled] + BBO(b, b'))
      && ((forall x :: x in all ==> x.id != id) ==> out.events == [OrderEvent(id, [], OrderRejected, 0, 0, [], reason)])
  {
    var b := BookOf(books, m.symbol);
    var all := b.bids + b.asks;
    BookIsSound(books, m.symbol);
    if e in all && e.id == m.body.orderId {
      CancelReportsOrder(b, e);
    } else if forall x :: x in all ==> x.id != m.body.orderId {
      CancelRefused(b, m.body.orderId);
    }
  }

  // A message without a command opens its symbol's book at most; one that cannot be read does nothing.
  lemma OtherOutcome(books: Books, m: Message)
    requires m.body.Malformed? || m.body.NoCommand?
    ensures var out := Process(books, m);
      && out.events == [] && (forall s :: BookOf(out.books, s) == BookOf(books, s))
      && out.books.Keys == books.Keys + if m.body.NoCommand? then {m.symbol} else {}
  {
  }
}
