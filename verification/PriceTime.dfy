/** The reference matcher: two plain lists in priority order, matched greedily.

    The lists hold every resting order; `top` is the next order id.  Everything the engine
    does is stated against these functions. */
module PriceTime {
  import opened EngineTypes

  datatype Book = Book(bids: seq<Entry>, asks: seq<Entry>, top: nat) {
    function Orders(side: Side): seq<Entry> { if side.Buy? then bids else asks }

    function With(side: Side, es: seq<Entry>): Book {
      if side.Buy? then this.(bids := es) else this.(asks := es)
    }
  }

  const EMPTY := Book([], [], 1)

  // Distance of a price from the front of its side of the book: smaller is better.
  function Rank(side: Side, price: nat): int { if side.Buy? then MAX_PRICE - price else price }

  // Price-time priority: better price first, then lower id.
  predicate Before(a: Entry, b: Entry) {
    || Rank(a.side, a.price) < Rank(b.side, b.price)
    || (a.price == b.price && a.id < b.id)
  }

  // The resting order `e` is inside the limit of the incoming order `agg`.
  predicate Crosses(agg: Entry, e: Entry) {
    if agg.side.Buy? then e.price <= agg.price else e.price >= agg.price
  }

  // ---------------------------------------------------------------- events

  function Report(e: Entry, kind: ExecType): Event {
    OrderEvent(e.id, TraderStr(e.trader), kind, e.qtyFilled, e.size, e.fills, Unspecified)
  }

  function Rejection(id: nat, trader: seq<Byte>, reason: RejectReason): Event {
    OrderEvent(id, trader, OrderRejected, 0, 0, [], reason)
  }

  // ---------------------------------------------------------------- matching

  function Min(a: nat, b: nat): nat { if a < b then a else b }

  // `e` after trading `qty` with `other` at `price`.
  function Traded(e: Entry, other: Entry, price: nat, qty: nat): Entry
    requires qty <= e.size
  {
    e.(size := e.size - qty, qtyFilled := e.qtyFilled + qty,
       fills := e.fills + [Match(other.id, TraderStr(other.trader), price, qty)])
  }

  datatype Swept = Swept(agg: Entry, rest: seq<Entry>, events: seq<Event>)

  // One trade of the incoming order with the first of the opposite list.
  function TradeOnce(agg: Entry, opp: seq<Entry>): (t: Swept)
    requires opp != []
    ensures |t.rest| + t.agg.size < |opp| + agg.size || agg.size == 0
  {
    var e := opp[0];
    var qty := Min(agg.size, e.size);
    var agg', e' := Traded(agg, e, e.price, qty), Traded(e, agg, e.price, qty);
    Swept(agg', (if e'.size == 0 then [] else [e']) + opp[1..],
          [Report(e', OrderFilled), Report(agg', OrderFilled)])
  }

  // The incoming order takes from the front of the opposite list while it crosses.
  function Sweep(agg: Entry, opp: seq<Entry>): Swept
    decreases |opp| + agg.size
  {
    if agg.size == 0 || opp == [] || !Crosses(agg, opp[0]) then Swept(agg, opp, [])
    else
      var now := TradeOnce(agg, opp);
      var later := Sweep(now.agg, now.rest);
      Swept(later.agg, later.rest, now.events + later.events)
  }

  // Adds `e` behind every order of the same or a better price.
  function Insert(es: seq<Entry>, e: Entry): seq<Entry> {
    if es == [] then [e]
    else if Rank(e.side, es[0].price) <= Rank(e.side, e.price) then [es[0]] + Insert(es[1..], e)
    else [e] + es
  }

  function Remove(es: seq<Entry>, id: nat): seq<Entry> {
    if es == [] then []
    else if es[0].id == id then Remove(es[1..], id)
    else [es[0]] + Remove(es[1..], id)
  }

  predicate Has(es: seq<Entry>, id: nat) { exists i :: 0 <= i < |es| && es[i].id == id }

  function Find(es: seq<Entry>, id: nat): (e: Entry)
    requires Has(es, id)
    ensures e in es && e.id == id
  {
    if es[0].id == id then es[0] else Find(es[1..], id)
  }

  // ---------------------------------------------------------------- top of book

  datatype Top = Top(bid: nat, bidQty: nat, ask: nat, askQty: nat)

  function TopPrice(es: seq<Entry>): nat { if es == [] then 0 else es[0].price }

  // Total resting size at one price, unbounded.
  function SumAt(es: seq<Entry>, price: nat): nat {
    if es == [] then 0
    else (if es[0].price == price then es[0].size else 0) + SumAt(es[1..], price)
  }

  function TopQty(es: seq<Entry>): nat { SumAt(es, TopPrice(es)) }

  function TopOf(b: Book): Top { Top(TopPrice(b.bids), TopQty(b.bids), TopPrice(b.asks), TopQty(b.asks)) }

  // A best-bid-offer event exactly when the true top of book changed; its payload is 32-bit.
  function BBO(before: Book, after: Book): seq<Event> {
    if TopOf(before) == TopOf(after) then []
    else
      var t := TopOf(after);
      [BBOEvent(t.bid, t.bidQty % WORD, t.ask, t.askQty % WORD)]
  }

  // ---------------------------------------------------------------- commands

  datatype Command = NewOrder(order: Order) | CancelOrder(id: nat)

  datatype Outcome = Outcome(book: Book, id: nat, events: seq<Event>)

  function Incoming(id: nat, o: Order): Entry { Entry(id, o.trader, o.price, o.size, o.side, 0, []) }

  // The book and events after sweeping, before the best-bid-offer report.
  function Matched(b: Book, agg: Entry): Outcome {
    var s := Sweep(agg, b.Orders(agg.side.Opposite()));
    var swept := b.With(agg.side.Opposite(), s.rest).(top := b.top + 1);
    if s.agg.size > 0 then
      Outcome(swept.With(agg.side, Insert(b.Orders(agg.side), s.agg)), agg.id,
              s.events + [Report(s.agg, OrderAccepted)])
    else Outcome(swept, agg.id, s.events)
  }

  function Limit(b: Book, o: Order): Outcome {
    if o.price == 0 then Outcome(b, NONE, [Rejection(NONE, TraderStr(o.trader), Unspecified)])
    else if b.top >= MAX_ORDERS then Outcome(b, NONE, [Rejection(NONE, TraderStr(o.trader), PoolExhausted)])
    else
      var m := Matched(b, Incoming(b.top, o));
      m.(events := m.events + BBO(b, m.book))
  }

  function Cancel(b: Book, id: nat): Outcome {
    if id == NONE || id >= b.top then Outcome(b, id, [Rejection(id, [], NotFound)])
    else if Has(b.bids + b.asks, id) then
      var e := Find(b.bids + b.asks, id);
      var b' := Book(Remove(b.bids, id), Remove(b.asks, id), b.top);
      Outcome(b', id, [Report(e, OrderCancelled)] + BBO(b, b'))
    else Outcome(b, id, [Rejection(id, [], AlreadyFilled)])
  }

  function Execute(b: Book, c: Command): Outcome {
    match c
    case NewOrder(o) => Limit(b, o)
    case CancelOrder(id) => Cancel(b, id)
  }

  // ---------------------------------------------------------------- export

  function Export(b: Book): BookState { BookState(b.bids + b.asks, TopPrice(b.bids), TopPrice(b.asks), b.top) }

  // ---------------------------------------------------------------- well-formed books

  predicate EntryOk(e: Entry, side: Side, top: nat) {
    && e.side == side
    && 0 < e.id < top
    && 0 < e.price < MAX_PRICE
    && 0 < e.size
    && e.size + e.qtyFilled < WORD
  }

  predicate SideOk(es: seq<Entry>, side: Side, top: nat) {
    && (forall i :: 0 <= i < |es| ==> EntryOk(es[i], side, top))
    && (forall i, j :: 0 <= i < j < |es| ==> Before(es[i], es[j]) && es[i].id != es[j].id)
  }

  // No bid reaches an ask, and no order is on both sides.
  predicate Apart(bids: seq<Entry>, asks: seq<Entry>) {
    forall i, j :: 0 <= i < |bids| && 0 <= j < |asks| ==>
      bids[i].price < asks[j].price && bids[i].id != asks[j].id
  }

  predicate WellFormed(b: Book) {
    && 1 <= b.top <= MAX_ORDERS
    && SideOk(b.bids, Buy, b.top)
    && SideOk(b.asks, Sell, b.top)
    && Apart(b.bids, b.asks)
  }
}
