/** Exporting a book and importing it into empty storage. */
module BookImport {
  import opened EngineTypes
  import opened PriceTime
  import opened Levels
  import opened LevelSteps
  import opened BookRep

  // ---------------------------------------------------------------- what an exported state stands for

  // The entries an import keeps.
  function Kept(es: seq<Entry>): seq<Entry> {
    if es == [] then []
    else Kept(es[..|es| - 1]) + if es[|es| - 1].id == NONE || es[|es| - 1].id >= MAX_ORDERS then [] else [es[|es| - 1]]
  }

  // `state` stands for the book `b`.
  ghost predicate Encodes(state: BookState, b: Book) {
    && WellFormed(b)
    && Kept(state.orders) == b.bids + b.asks
    && state.bestBid == TopPrice(b.bids)
    && state.bestAsk == TopPrice(b.asks)
    && b.top == if state.poolTop < 1 then 1 else state.poolTop
  }

  lemma {:induction false} KeptAll(es: seq<Entry>)
    requires forall i :: 0 <= i < |es| ==> 0 < es[i].id < MAX_ORDERS
    ensures Kept(es) == es
  {
    if es != [] {
      KeptAll(es[..|es| - 1]);
      assert es == es[..|es| - 1] + [es[|es| - 1]];
    }
  }

  // A well-formed book's export stands for that book.
  lemma ExportEncodes(b: Book)
    requires WellFormed(b)
    ensures Encodes(Export(b), b)
  {
    var es := b.bids + b.asks;
    forall i | 0 <= i < |es| ensures 0 < es[i].id < MAX_ORDERS {
      if i < |b.bids| {
        assert EntryOk(b.bids[i], Buy, b.top);
      } else {
        assert EntryOk(b.asks[i - |b.bids|], Sell, b.top);
      }
    }
    KeptAll(es);
  }

  // ---------------------------------------------------------------- empty storage

  ghost predicate Blank(r: Rep) {
    && |r.pool| == MAX_ORDERS && (forall i :: 0 <= i < |r.pool| ==> r.pool[i] == EMPTY_SLOT)
    && |r.bid.levels| == |r.bid.queues| == |r.ask.levels| == |r.ask.queues| == MAX_PRICE
    && (forall p :: 0 <= p < MAX_PRICE ==> r.bid.levels[p] == r.ask.levels[p] == EMPTY_LEVEL)
    && (forall p :: 0 <= p < MAX_PRICE ==> r.bid.queues[p] == r.ask.queues[p] == [])
    && r.bid.cursor == r.ask.cursor == MAX_PRICE
  }

  lemma BlankOk(r: Rep, bound: nat)
    requires Blank(r) && 1 <= bound <= MAX_ORDERS
    ensures RepOk(r, bound) && List(r, Buy) == [] && List(r, Sell) == []
  {
    BlankHalf(r.pool, r.bid, Buy, bound);
    BlankHalf(r.pool, r.ask, Sell, bound);
  }

  lemma BlankHalf(pool: seq<Slot>, h: Half, side: Side, bound: nat)
    requires 1 <= bound <= |pool| && (forall i :: 0 <= i < |pool| ==> pool[i] == EMPTY_SLOT)
    requires |h.levels| == |h.queues| == MAX_PRICE && h.cursor == MAX_PRICE
    requires forall p :: 0 <= p < MAX_PRICE ==> h.levels[p] == EMPTY_LEVEL && h.queues[p] == []
    ensures HalfOk(pool, h, side, bound) && Queues(pool, h.queues) && Denoted(pool, h, side) == []
  {
    forall p | 0 <= p < MAX_PRICE ensures LevelOk(pool, h.levels[p], h.queues[p], side, p, bound) {
    }
    HalfQueues(pool, h, side, bound);
    CursorSkips(pool, h, side, bound);
  }

  // ---------------------------------------------------------------- importing one entry

  // Storage without stale nodes: every linked slot is active.
  ghost predicate Clean(r: Rep) {
    && |r.bid.queues| == |r.ask.queues| == MAX_PRICE
    && (forall p :: 0 <= p < MAX_PRICE ==> AllActive(r.pool, r.bid.queues[p]))
    && (forall p :: 0 <= p < MAX_PRICE ==> AllActive(r.pool, r.ask.queues[p]))
  }

  ghost predicate AllActive(pool: seq<Slot>, q: seq<nat>) {
    forall i :: 0 <= i < |q| ==> q[i] < |pool| && pool[q[i]].active
  }

  function SlotOf(e: Entry): Slot { Slot(e.trader, e.size, NONE, e.price, e.side, true, e.qtyFilled, e.fills) }

  // `e` comes after everything already imported.
  predicate ComesNext(bids: seq<Entry>, asks: seq<Entry>, e: Entry) {
    && (forall i :: 0 <= i < |bids| ==> bids[i].id != e.id && (e.side.Buy? ==> Before(bids[i], e))
                                        && (e.side.Sell? ==> bids[i].price < e.price))
    && (forall i :: 0 <= i < |asks| ==> asks[i].id != e.id && (e.side.Sell? ==> Before(asks[i], e))
                                        && (e.side.Buy? ==> e.price < asks[i].price))
  }

  lemma QueuedIsListed(r: Rep, bound: nat, side: Side, p: int, i: int)
    requires RepOk(r, bound) && Clean(r) && 0 <= p < MAX_PRICE && 0 <= i < |r.Of(side).queues[p]|
    ensures var id := r.Of(side).queues[p][i];
      0 < id < bound && EntryOf(id, r.pool[id]) in List(r, side) && r.pool[id].price == p && r.pool[id].side == side
  {
    var h := r.Of(side);
    var id := h.queues[p][i];
    RepSide(r, bound, side);
    assert AllActive(r.pool, h.queues[p]);
    assert LevelOk(r.pool, h.levels[p], h.queues[p], side, p, bound);
    assert SlotOk(r.pool[id]);
    FlatContains(r.pool, h.queues, side, 1, id);
  }

  lemma NextIsFresh(r: Rep, bound: nat, e: Entry)
    requires RepOk(r, bound) && Clean(r) && EntryOk(e, e.side, bound)
    requires ComesNext(List(r, Buy), List(r, Sell), e)
    ensures FreshIn(r, e.id) && Fresh(r.Of(e.side), e.price, e.id) && !r.pool[e.id].active
  {
    forall side: Side, p, i | 0 <= p < MAX_PRICE && 0 <= i < |r.Of(side).queues[p]|
      ensures r.Of(side).queues[p][i] != e.id
      ensures side == e.side && p == e.price ==> r.Of(side).queues[p][i] < e.id
    {
      QueuedIsListed(r, bound, side, p, i);
      var id := r.Of(side).queues[p][i];
      var x := EntryOf(id, r.pool[id]);
      var k :| 0 <= k < |List(r, side)| && List(r, side)[k] == x;
    }
    ActiveIsListed(r, bound, e.id);
    assert !Has(List(r, Buy) + List(r, Sell), e.id);
  }

  // Both cursors are exactly at the best prices.
  ghost predicate Tight(r: Rep) {
    r.bid.cursor == BestRank(List(r, Buy), Buy) && r.ask.cursor == BestRank(List(r, Sell), Sell)
  }

  lemma {:induction false} InsertLast(es: seq<Entry>, e: Entry)
    requires forall i :: 0 <= i < |es| ==> Rank(e.side, es[i].price) <= Rank(e.side, e.price)
    ensures Insert(es, e) == es + [e]
  {
    assert es + [] == es;
    InsertConcat(es, [], e);
  }

  lemma NextAppends(r: Rep, side: Side, e: Entry)
    requires e.side == side && ComesNext(List(r, Buy), List(r, Sell), e)
    requires forall i :: 0 <= i < |List(r, side)| ==> List(r, side)[i].side == side
    ensures Insert(List(r, side), e) == List(r, side) + [e]
    ensures forall i :: 0 <= i < |List(r, side)| ==> Rank(side, List(r, side)[i].price) <= Rank(side, e.price)
  {
    var es := List(r, side);
    forall i | 0 <= i < |es| ensures Rank(side, es[i].price) <= Rank(side, e.price) {
      assert Before(es[i], e);
    }
    InsertLast(es, e);
  }

  lemma SidesOfList(r: Rep, bound: nat, side: Side)
    requires RepOk(r, bound)
    ensures forall i :: 0 <= i < |List(r, side)| ==> List(r, side)[i].side == side
  {
    RepSide(r, bound, side);
    FlatMembers(r.pool, r.Of(side), side, bound, 1);
  }

  ghost predicate Importing(r: Rep, bound: nat) { RepOk(r, bound) && Clean(r) && Tight(r) }

  lemma NextCanRest(r: Rep, bound: nat, e: Entry)
    requires Importing(r, bound) && EntryOk(e, e.side, bound)
    requires ComesNext(List(r, Buy), List(r, Sell), e)
    ensures CanRest(r, bound, e.id, SlotOf(e))
  {
    NextIsFresh(r, bound, e);
  }

  lemma StillTight(r: Rep, r': Rep, e: Entry)
    requires Tight(r) && e.price < MAX_PRICE
    requires r'.Of(e.side).cursor == RaisedCursor(r.Of(e.side), Rank(e.side, e.price)).cursor
    requires r'.Of(e.side.Opposite()).cursor == r.Of(e.side.Opposite()).cursor
    requires List(r', e.side) == List(r, e.side) + [e] && List(r', e.side.Opposite()) == List(r, e.side.Opposite())
    requires List(r, e.side) != [] ==> Rank(e.side, List(r, e.side)[0].price) <= Rank(e.side, e.price)
    requires 0 < e.price
    ensures Tight(r')
  {
  }

  lemma ImportStep(r: Rep, bound: nat, e: Entry)
    requires Importing(r, bound) && EntryOk(e, e.side, bound)
    requires ComesNext(List(r, Buy), List(r, Sell), e)
    ensures r.Of(e.side).levels[e.price].tail < |r.pool|
    ensures var r' := Rested(r, e.id, SlotOf(e));
      && Importing(r', bound)
      && List(r', e.side) == List(r, e.side) + [e]
      && List(r', e.side.Opposite()) == List(r, e.side.Opposite())
  {
    assert EntryOf(e.id, SlotOf(e)) == e;
    SidesOfList(r, bound, e.side);
    NextAppends(r, e.side, e);
    NextCanRest(r, bound, e);
    RestStep(r, bound, e.id, SlotOf(e));
    CleanStep(r, bound, e);
    StillTight(r, Rested(r, e.id, SlotOf(e)), e);
  }

  lemma LinkKeepsActive(pool: seq<Slot>, level: Level, id: nat, s: Slot, q: seq<nat>)
    requires id < |pool| && level.tail < |pool| && s.active && AllActive(pool, q)
    ensures AllActive(LinkedPool(pool, level, id, s), q) && AllActive(LinkedPool(pool, level, id, s), q + [id])
  {
    var pool' := LinkedPool(pool, level, id, s);
    assert AllActive(pool', q);
    assert pool'[id].active;
  }

  lemma CleanStep(r: Rep, bound: nat, e: Entry)
    requires Importing(r, bound) && EntryOk(e, e.side, bound)
    requires r.Of(e.side).levels[e.price].tail < |r.pool|
    ensures Clean(Rested(r, e.id, SlotOf(e)))
  {
    var r' := Rested(r, e.id, SlotOf(e));
    var level := r.Of(e.side).levels[e.price];
    forall p | 0 <= p < MAX_PRICE ensures AllActive(r'.pool, r'.bid.queues[p]) {
      assert AllActive(r.pool, r.bid.queues[p]);
      LinkKeepsActive(r.pool, level, e.id, SlotOf(e), r.bid.queues[p]);
    }
    forall p | 0 <= p < MAX_PRICE ensures AllActive(r'.pool, r'.ask.queues[p]) {
      assert AllActive(r.pool, r.ask.queues[p]);
      LinkKeepsActive(r.pool, level, e.id, SlotOf(e), r.ask.queues[p]);
    }
  }

  // ---------------------------------------------------------------- the order of import

  function BidsUpTo(b: Book, k: int): seq<Entry>
    requires 0 <= k <= |b.bids| + |b.asks|
  {
    if k <= |b.bids| then b.bids[..k] else b.bids
  }

  function AsksUpTo(b: Book, k: int): seq<Entry>
    requires 0 <= k <= |b.bids| + |b.asks|
  {
    if k <= |b.bids| then [] else b.asks[..k - |b.bids|]
  }

  lemma NextInOrder(b: Book, k: int)
    requires WellFormed(b) && 0 <= k < |b.bids| + |b.asks|
    ensures var e := (b.bids + b.asks)[k];
      && EntryOk(e, e.side, b.top)
      && ComesNext(BidsUpTo(b, k), AsksUpTo(b, k), e)
      && BidsUpTo(b, k + 1) == (if e.side.Buy? then BidsUpTo(b, k) + [e] else BidsUpTo(b, k))
      && AsksUpTo(b, k + 1) == (if e.side.Sell? then AsksUpTo(b, k) + [e] else AsksUpTo(b, k))
  {
    var e := (b.bids + b.asks)[k];
    if k < |b.bids| {
      assert EntryOk(b.bids[k], Buy, b.top);
    } else {
      assert EntryOk(b.asks[k - |b.bids|], Sell, b.top);
    }
  }

  lemma KeptPrefix(es: seq<Entry>, i: int)
    requires 0 <= i < |es|
    ensures Kept(es[..i + 1]) ==
      Kept(es[..i]) + if es[i].id == NONE || es[i].id >= MAX_ORDERS then [] else [es[i]]
  {
    assert es[..i + 1][..i] == es[..i];
  }

  lemma {:induction false} KeptGrows(es: seq<Entry>, i: int)
    requires 0 <= i <= |es|
    ensures Kept(es[..i]) <= Kept(es)
    decreases |es| - i
  {
    if i == |es| {
      assert es[..i] == es;
    } else {
      KeptPrefix(es, i);
      KeptGrows(es, i + 1);
    }
  }

  // The next entry kept is the next order of the book.
  lemma KeptNext(es: seq<Entry>, all: seq<Entry>, i: int)
    requires 0 <= i < |es| && Kept(es) == all
    ensures var k := |Kept(es[..i])|;
      && Kept(es[..i + 1]) <= all
      && if es[i].id == NONE || es[i].id >= MAX_ORDERS then Kept(es[..i + 1]) == Kept(es[..i])
         else k < |all| && all[k] == es[i] && Kept(es[..i + 1]) == Kept(es[..i]) + [es[i]]
  {
    KeptPrefix(es, i);
    KeptGrows(es, i + 1);
    KeptGrows(es, i);
    assert Kept(es[..i + 1]) <= all;
  }

  // Equal storage up to the price cursors.
  predicate SameStorage(r: Rep, r': Rep) {
    r'.pool == r.pool && r'.bid == r.bid.(cursor := r'.bid.cursor) && r'.ask == r.ask.(cursor := r'.ask.cursor)
  }

  // Scanning may start at the best price.
  lemma StartAtBest(r: Rep, bound: nat, side: Side)
    requires RepOk(r, bound)
    ensures var best := TopPrice(List(r, side));
      && best < MAX_PRICE
      && (best == 0 ==> List(r, side) == [])
      && (best > 0 ==> List(r, side) == Flat(r.pool, r.Of(side).queues, side, Rank(side, best)))
  {
    RepSide(r, bound, side);
    FlatFromHead(r.pool, r.Of(side), side, bound, 1);
    FlatMembers(r.pool, r.Of(side), side, bound, 1);
  }

  // The first `k` orders of the book have been imported into `r`.
  ghost predicate Imported(r: Rep, b: Book, k: int) {
    && 0 <= k <= |b.bids| + |b.asks|
    && Importing(r, b.top) && List(r, Buy) == BidsUpTo(b, k) && List(r, Sell) == AsksUpTo(b, k)
  }

  lemma ImportNext(r: Rep, b: Book, k: int, e: Entry)
    requires WellFormed(b) && Imported(r, b, k) && k < |b.bids| + |b.asks| && (b.bids + b.asks)[k] == e
    ensures e.price < MAX_PRICE && e.id < |r.pool| && r.Of(e.side).levels[e.price].tail < |r.pool|
    ensures Imported(Rested(r, e.id, SlotOf(e)), b, k + 1)
  {
    NextInOrder(b, k);
    ImportStep(r, b.top, e);
  }

  lemma ImportDone(r: Rep, b: Book)
    requires WellFormed(b) && Imported(r, b, |b.bids| + |b.asks|)
    ensures RepOk(r, b.top) && List(r, Buy) == b.bids && List(r, Sell) == b.asks
    ensures r.bid.cursor == MAX_PRICE - TopPrice(b.bids)
    ensures r.ask.cursor == if TopPrice(b.asks) == 0 then MAX_PRICE else TopPrice(b.asks)
  {
    if b.asks != [] {
      assert EntryOk(b.asks[0], Sell, b.top);
    }
  }

  // What importing one entry writes.
  ghost predicate Wrote(r: Rep, r': Rep, e: Entry) {
    && |r.Of(e.side).levels| == |r.Of(e.side).queues| == MAX_PRICE && e.price < MAX_PRICE
    && e.id < |r.pool| && r.Of(e.side).levels[e.price].tail < |r.pool|
    && r'.pool == LinkedPool(r.pool, r.Of(e.side).levels[e.price], e.id, SlotOf(e))
    && r'.Of(e.side) == LinkedHalf(r.Of(e.side), e.price, e.id)
    && r'.Of(e.side.Opposite()) == r.Of(e.side.Opposite())
  }

  lemma WroteSame(r: Rep, r': Rep, clean: Rep, e: Entry)
    requires Wrote(r, r', e) && SameStorage(r, clean)
    ensures SameStorage(r', Rested(clean, e.id, SlotOf(e)))
  {
  }

  // ---------------------------------------------------------------- importing any state

  // Prices are 16-bit.
  predicate InRange(state: BookState) {
    && state.bestBid < MAX_PRICE && state.bestAsk < MAX_PRICE
    && forall i :: 0 <= i < |state.orders| && 0 < state.orders[i].id < MAX_ORDERS ==> state.orders[i].price < MAX_PRICE
  }

  lemma EncodesInRange(state: BookState, b: Book)
    requires Encodes(state, b)
    ensures InRange(state)
  {
    var all := b.bids + b.asks;
    assert forall i :: 0 <= i < |b.bids| ==> EntryOk(b.bids[i], Buy, b.top);
    assert forall i :: 0 <= i < |b.asks| ==> EntryOk(b.asks[i], Sell, b.top);
    forall i | 0 <= i < |state.orders| && 0 < state.orders[i].id < MAX_ORDERS
      ensures state.orders[i].price < MAX_PRICE
    {
      KeptNext(state.orders, all, i);
    }
  }

  // Storage in which linking another order is safe.
  predicate Shaped(r: Rep) {
    && |r.pool| == MAX_ORDERS
    && |r.bid.levels| == |r.bid.queues| == |r.ask.levels| == |r.ask.queues| == MAX_PRICE
    && (forall p :: 0 <= p < MAX_PRICE ==> r.bid.levels[p].tail < MAX_ORDERS)
    && (forall p :: 0 <= p < MAX_PRICE ==> r.ask.levels[p].tail < MAX_ORDERS)
  }

  lemma RestedShaped(r: Rep, e: Entry)
    requires Shaped(r) && e.id < MAX_ORDERS && e.price < MAX_PRICE
    ensures Shaped(Rested(r, e.id, SlotOf(e)))
  {
  }

  // Whatever book the entries stand for, the first `i` of them are imported.
  ghost predicate ImportedSoFar(r: Rep, es: seq<Entry>, i: int)
    requires 0 <= i <= |es|
  {
    forall b :: WellFormed(b) && Kept(es) == b.bids + b.asks ==> Imported(r, b, |Kept(es[..i])|)
  }

  lemma NoneImported(r: Rep, es: seq<Entry>)
    requires Blank(r)
    ensures ImportedSoFar(r, es, 0) && Shaped(r)
  {
    forall b | WellFormed(b) && Kept(es) == b.bids + b.asks ensures Imported(r, b, |Kept(es[..0])|) {
      BlankOk(r, b.top);
    }
  }

  lemma SkippedSoFar(r: Rep, es: seq<Entry>, i: int)
    requires 0 <= i < |es| && ImportedSoFar(r, es, i) && (es[i].id == NONE || es[i].id >= MAX_ORDERS)
    ensures ImportedSoFar(r, es, i + 1)
  {
    forall b | WellFormed(b) && Kept(es) == b.bids + b.asks ensures Imported(r, b, |Kept(es[..i + 1])|) {
      KeptNext(es, b.bids + b.asks, i);
    }
  }

  lemma NextSoFar(r: Rep, es: seq<Entry>, i: int)
    requires 0 <= i < |es| && ImportedSoFar(r, es, i) && 0 < es[i].id < MAX_ORDERS
    requires Shaped(r) && es[i].price < MAX_PRICE
    ensures ImportedSoFar(Rested(r, es[i].id, SlotOf(es[i])), es, i + 1)
  {
    var r' := Rested(r, es[i].id, SlotOf(es[i]));
    forall b | WellFormed(b) && Kept(es) == b.bids + b.asks ensures Imported(r', b, |Kept(es[..i + 1])|) {
      KeptNext(es, b.bids + b.asks, i);
      ImportNext(r, b, |Kept(es[..i])|, es[i]);
    }
  }

  // The storage of a book, with the cursors of its state, is a sound representation of it.
  lemma RestoredIs(r: Rep, state: BookState, b: Book)
    requires ImportedSoFar(r, state.orders, |state.orders|) && Encodes(state, b)
    ensures RepOk(r, b.top) && List(r, Buy) == b.bids && List(r, Sell) == b.asks
    ensures r.bid.cursor == MAX_PRICE - state.bestBid
    ensures r.ask.cursor == if state.bestAsk == 0 then MAX_PRICE else state.bestAsk
  {
    assert state.orders[..|state.orders|] == state.orders;
    ImportDone(r, b);
  }

  // `r` is a sound representation of `b`, the next id being `top`.
  ghost predicate Represents(r: Rep, top: nat, b: Book) {
    RepOk(r, top) && WellFormed(b) && b == Book(List(r, Buy), List(r, Sell), top)
  }

  lemma RestoredAll(r: Rep, r': Rep, state: BookState, top: nat)
    requires ImportedSoFar(r, state.orders, |state.orders|) && SameStorage(r, r')
    requires r'.bid.cursor == MAX_PRICE - state.bestBid
    requires r'.ask.cursor == if state.bestAsk == 0 then MAX_PRICE else state.bestAsk
    requires top == if state.poolTop < 1 then 1 else state.poolTop
    ensures forall b :: Encodes(state, b) ==> Represents(r', top, b)
  {
    forall b | Encodes(state, b) ensures Represents(r', top, b) {
      RestoredIs(r, state, b);
      assert r' == r;
    }
  }
}
