/** The stored form of a book (market/internal/service/snapshot.go). */
module BookWire {
  import opened EngineTypes
  import opened PriceTime
  import opened BookFacts

  datatype MatchSnapshot = MatchSnapshot(orderId: nat, trader: seq<Byte>, price: nat, qty: nat)

  datatype OrderSnapshot = OrderSnapshot(id: nat, trader: seq<Byte>, price: nat, size: nat, side: string,
                                         qtyFilled: nat, matches: seq<MatchSnapshot>)

  datatype BookSnapshot = BookSnapshot(orders: seq<OrderSnapshot>, bestBid: nat, bestAsk: nat, poolTop: nat)

  // Copies a name into eight bytes, truncating or zero padding it.
  function Pad8(t: seq<Byte>): (r: Trader)
    ensures |r| == 8
    ensures forall i :: 0 <= i < 8 ==> r[i] == if i < |t| then t[i] else 0
  {
    if |t| >= 8 then t[..8] else t + seq(8 - |t|, _ => 0)
  }

  // Prices are stored as 32-bit and read back as 16-bit values.
  function ToPrice(p: nat): nat { p % MAX_PRICE }

  function PackMatch(m: Match): MatchSnapshot { MatchSnapshot(m.orderId, m.trader, m.price, m.qty) }

  function UnpackMatch(m: MatchSnapshot): Match { Match(m.orderId, m.trader, ToPrice(m.price), m.qty) }

  function PackMatches(ms: seq<Match>): seq<MatchSnapshot> {
    seq(|ms|, i requires 0 <= i < |ms| => PackMatch(ms[i]))
  }

  function UnpackMatches(ms: seq<MatchSnapshot>): seq<Match> {
    seq(|ms|, i requires 0 <= i < |ms| => UnpackMatch(ms[i]))
  }

  function PackOrder(e: Entry): OrderSnapshot {
    OrderSnapshot(e.id, TraderStr(e.trader), e.price, e.size, if e.side.Sell? then "S" else "B", e.qtyFilled,
                  PackMatches(e.fills))
  }

  function UnpackOrder(o: OrderSnapshot): Entry {
    Entry(o.id, Pad8(o.trader), ToPrice(o.price), o.size, if o.side == "S" then Sell else Buy, o.qtyFilled,
          UnpackMatches(o.matches))
  }

  function Pack(s: BookState): BookSnapshot {
    BookSnapshot(seq(|s.orders|, i requires 0 <= i < |s.orders| => PackOrder(s.orders[i])),
                 s.bestBid, s.bestAsk, s.poolTop)
  }

  function Unpack(s: BookSnapshot): BookState {
    BookState(seq(|s.orders|, i requires 0 <= i < |s.orders| => UnpackOrder(s.orders[i])),
              ToPrice(s.bestBid), ToPrice(s.bestAsk), s.poolTop)
  }

  // A stored order shows the order's own fields, its side as a letter and its name without padding.
  predicate StoredAs(e: Entry, o: OrderSnapshot) {
    && o.id == e.id && o.price == e.price && o.size == e.size && o.qtyFilled == e.qtyFilled
    && o.side == (if e.side.Buy? then "B" else "S")
    && o.trader <= e.trader && (forall i :: |o.trader| <= i < |e.trader| ==> e.trader[i] == 0)
    && |o.matches| == |e.fills|
    && forall i :: 0 <= i < |e.fills| ==>
         o.matches[i] == MatchSnapshot(e.fills[i].orderId, e.fills[i].trader, e.fills[i].price, e.fills[i].qty)
  }

  // An order read back has the stored fields, prices in 16 bits, the first eight bytes of the name
  // padded with zeros, and the side Sell for "S" and Buy for anything else.
  predicate ReadAs(o: OrderSnapshot, e: Entry) {
    && e.id == o.id && e.price == o.price % 65536 && e.size == o.size && e.qtyFilled == o.qtyFilled
    && (e.side == Sell <==> o.side == "S")
    && |e.trader| == 8 && (forall i :: 0 <= i < 8 ==> e.trader[i] == if i < |o.trader| then o.trader[i] else 0)
    && |e.fills| == |o.matches|
    && forall i :: 0 <= i < |e.fills| ==>
         var m := o.matches[i];
         e.fills[i] == Match(m.orderId, m.trader, m.price % 65536, m.qty)
  }

  // ---------------------------------------------------------------- the conversions as written

  method MarshalBookState(state: BookState) returns (snap: BookSnapshot)
    ensures snap == Pack(state)
    ensures snap.bestBid == state.bestBid && snap.bestAsk == state.bestAsk && snap.poolTop == state.poolTop
    ensures |snap.orders| == |state.orders|
    ensures forall i :: 0 <= i < |snap.orders| ==> StoredAs(state.orders[i], snap.orders[i])
  {
    var orders: seq<OrderSnapshot> := [];
    for i := 0 to |state.orders|
      invariant orders == Pack(state).orders[..i]
    {
      var e := state.orders[i];
      var side := "B";
      if e.side == Sell {
        side := "S";
      }
      var matches: seq<MatchSnapshot> := [];
      for j := 0 to |e.fills|
        invariant matches == PackMatches(e.fills)[..j]
      {
        var m := e.fills[j];
        matches := matches + [MatchSnapshot(m.orderId, m.trader, m.price, m.qty)];
      }
      assert matches == PackMatches(e.fills);
      orders := orders + [OrderSnapshot(e.id, TraderStr(e.trader), e.price, e.size, side, e.qtyFilled, matches)];
    }
    snap := BookSnapshot(orders, state.bestBid, state.bestAsk, state.poolTop);
  }

  method UnmarshalBookState(snap: BookSnapshot) returns (state: BookState)
    ensures state == Unpack(snap)
    ensures state.bestBid == snap.bestBid % 65536 && state.bestAsk == snap.bestAsk % 65536
    ensures state.poolTop == snap.poolTop && |state.orders| == |snap.orders|
    ensures forall i :: 0 <= i < |snap.orders| ==> ReadAs(snap.orders[i], state.orders[i])
  {
    var orders: seq<Entry> := [];
    for i := 0 to |snap.orders|
      invariant orders == Unpack(snap).orders[..i]
    {
      var o := snap.orders[i];
      var side := Buy;
      if o.side == "S" {
        side := Sell;
      }
      var fills: seq<Match> := [];
      for j := 0 to |o.matches|
        invariant fills == UnpackMatches(o.matches)[..j]
      {
        var m := o.matches[j];
        fills := fills + [Match(m.orderId, m.trader, ToPrice(m.price), m.qty)];
      }
      assert fills == UnpackMatches(o.matches);
      orders := orders + [Entry(o.id, Pad8(o.trader), ToPrice(o.price), o.size, side, o.qtyFilled, fills)];
    }
    state := BookState(orders, ToPrice(snap.bestBid), ToPrice(snap.bestAsk), snap.poolTop);
  }

  // ---------------------------------------------------------------- round trip

  predicate StorableFills(ms: seq<Match>) { forall i :: 0 <= i < |ms| ==> ms[i].price < MAX_PRICE }

  // Entries that survive storage unchanged.
  predicate Storable(e: Entry) { |e.trader| == 8 && e.price < MAX_PRICE && StorableFills(e.fills) }

  predicate AllStorable(es: seq<Entry>) { forall i :: 0 <= i < |es| ==> Storable(es[i]) }

  lemma TraderRoundTrip(t: seq<Byte>)
    requires |t| == 8
    ensures Pad8(TraderStr(t)) == t
  {
    var s := TraderStr(t);
    forall i | 0 <= i < 8 ensures Pad8(s)[i] == t[i] {
      if i < |s| {
        assert s[i] == t[i];
      }
    }
  }

  lemma FillsRoundTrip(ms: seq<Match>)
    requires StorableFills(ms)
    ensures UnpackMatches(PackMatches(ms)) == ms
  {
    forall i | 0 <= i < |ms| ensures UnpackMatches(PackMatches(ms))[i] == ms[i] {
      assert ToPrice(ms[i].price) == ms[i].price;
    }
  }

  lemma OrderRoundTrip(e: Entry)
    requires Storable(e)
    ensures UnpackOrder(PackOrder(e)) == e
  {
    TraderRoundTrip(e.trader);
    FillsRoundTrip(e.fills);
  }

  lemma StateRoundTrip(s: BookState)
    requires AllStorable(s.orders) && s.bestBid < MAX_PRICE && s.bestAsk < MAX_PRICE
    ensures Unpack(Pack(s)) == s
  {
    forall i | 0 <= i < |s.orders| ensures Unpack(Pack(s)).orders[i] == s.orders[i] {
      OrderRoundTrip(s.orders[i]);
    }
  }

  // ---------------------------------------------------------------- books stay storable

  predicate BookStorable(b: Book) { AllStorable(b.bids) && AllStorable(b.asks) }

  lemma TradedStorable(e: Entry, other: Entry, price: nat, qty: nat)
    requires Storable(e) && qty <= e.size && price < MAX_PRICE
    ensures Storable(Traded(e, other, price, qty))
  {
  }

  lemma {:induction false} SweepStorable(agg: Entry, opp: seq<Entry>)
    requires Storable(agg) && AllStorable(opp)
    ensures Storable(Sweep(agg, opp).agg) && AllStorable(Sweep(agg, opp).rest)
    decreases |opp| + agg.size
  {
    if agg.size == 0 || opp == [] || !Crosses(agg, opp[0]) {
    } else {
      var e := opp[0];
      var qty := Min(agg.size, e.size);
      assert Storable(e);
      TradedStorable(agg, e, e.price, qty);
      TradedStorable(e, agg, e.price, qty);
      var now := TradeOnce(agg, opp);
      assert AllStorable(now.rest);
      SweepStorable(now.agg, now.rest);
    }
  }

  lemma InsertStorable(es: seq<Entry>, e: Entry)
    requires AllStorable(es) && Storable(e)
    ensures AllStorable(Insert(es, e))
  {
    forall i | 0 <= i < |Insert(es, e)| ensures Storable(Insert(es, e)[i]) {
      InsertAll(es, e, i);
    }
  }

  lemma ExecuteStorable(b: Book, c: Command)
    requires BookStorable(b) && (c.NewOrder? ==> |c.order.trader| == 8)
    ensures BookStorable(Execute(b, c).book)
  {
    match c
    case NewOrder(o) =>
      if o.price != 0 && b.top < MAX_ORDERS {
        var agg := Incoming(b.top, o);
        SweepStorable(agg, b.Orders(o.side.Opposite()));
        InsertStorable(b.Orders(o.side), Sweep(agg, b.Orders(o.side.Opposite())).agg);
      }
    case CancelOrder(id) =>
      RemoveMembers(b.bids, id);
      RemoveMembers(b.asks, id);
  }

  lemma ExportStorable(b: Book)
    requires BookStorable(b)
    ensures AllStorable(b.bids + b.asks)
    ensures (b.bids != [] ==> b.bids[0].price < MAX_PRICE) && (b.asks != [] ==> b.asks[0].price < MAX_PRICE)
  {
    assert b.bids != [] ==> Storable(b.bids[0]);
    assert b.asks != [] ==> Storable(b.asks[0]);
  }

  lemma ExportRoundTrip(b: Book)
    requires BookStorable(b)
    ensures Unpack(Pack(Export(b))) == Export(b)
  {
    ExportStorable(b);
    StateRoundTrip(Export(b));
  }
}
