/** The whole storage of a book as one value, and the effect of each engine step on it. */
module BookRep {
  import opened EngineTypes
  import opened PriceTime
  import opened Levels
  import opened LevelSteps
  import opened Sequences

  datatype Rep = Rep(pool: seq<Slot>, bid: Half, ask: Half) {
    function Of(side: Side): Half { if side.Buy? then bid else ask }

    function With(side: Side, h: Half): Rep { if side.Buy? then this.(bid := h) else this.(ask := h) }
  }

  // The representation invariant, for the ids below `bound`.
  ghost predicate RepOk(r: Rep, bound: nat) {
    && PoolOk(r.pool, bound)
    && HalfOk(r.pool, r.bid, Buy, bound) && Queues(r.pool, r.bid.queues)
    && HalfOk(r.pool, r.ask, Sell, bound) && Queues(r.pool, r.ask.queues)
    // bidMax < askMin
    && r.bid.cursor + r.ask.cursor > MAX_PRICE
  }

  // The resting orders of one side in priority order.
  ghost function List(r: Rep, side: Side): seq<Entry> {
    if Queues(r.pool, r.Of(side).queues) then Denoted(r.pool, r.Of(side), side) else []
  }

  lemma RepSide(r: Rep, bound: nat, side: Side)
    requires RepOk(r, bound)
    ensures bound <= |r.pool| == MAX_ORDERS && PoolOk(r.pool, bound)
    ensures HalfOk(r.pool, r.Of(side), side, bound) && Queues(r.pool, r.Of(side).queues)
    ensures List(r, side) == Denoted(r.pool, r.Of(side), side)
  {
  }

  lemma Assemble(r: Rep, bound: nat, side: Side)
    requires PoolOk(r.pool, bound) && r.bid.cursor + r.ask.cursor > MAX_PRICE
    requires HalfOk(r.pool, r.Of(side), side, bound) && Queues(r.pool, r.Of(side).queues)
    requires HalfOk(r.pool, r.Of(side.Opposite()), side.Opposite(), bound)
      && Queues(r.pool, r.Of(side.Opposite()).queues)
    ensures RepOk(r, bound)
  {
  }

  // Unlinking cancelled orders changes neither list.
  lemma SkipStep(r: Rep, bound: nat, side: Side, price: int, k: int)
    requires RepOk(r, bound) && 0 <= price < MAX_PRICE
    requires |r.Of(side).levels| == |r.Of(side).queues| == MAX_PRICE
      && FrontInactive(r.pool, r.Of(side).queues[price], k)
    ensures var r' := r.With(side, Unlinked(r.Of(side), price, k));
      RepOk(r', bound) && List(r', Buy) == List(r, Buy) && List(r', Sell) == List(r, Sell)
  {
    RepSide(r, bound, side);
    UnlinkInactive(r.pool, r.Of(side), side, bound, price, k);
    Assemble(r.With(side, Unlinked(r.Of(side), price, k)), bound, side);
  }

  lemma AdvanceStep(r: Rep, bound: nat, side: Side)
    requires RepOk(r, bound)
    requires |r.Of(side).queues| == MAX_PRICE && 1 <= r.Of(side).cursor < MAX_PRICE
    requires r.Of(side).queues[PriceAt(side, r.Of(side).cursor)] == []
    ensures var r' := r.With(side, r.Of(side).(cursor := r.Of(side).cursor + 1));
      RepOk(r', bound) && List(r', Buy) == List(r, Buy) && List(r', Sell) == List(r, Sell)
  {
    RepSide(r, bound, side);
    AdvanceCursor(r.pool, r.Of(side), side, bound);
  }

  // A slot at the bound belongs to the order being matched, which no list shows.
  lemma WriteAtBound(r: Rep, bound: nat, s: Slot)
    requires RepOk(r, bound) && bound < |r.pool|
    ensures var r' := r.(pool := r.pool[bound := s]);
      RepOk(r', bound) && List(r', Buy) == List(r, Buy) && List(r', Sell) == List(r, Sell)
  {
    var pool' := r.pool[bound := s];
    FrameSide(r.pool, pool', r.bid, Buy, bound);
    FrameSide(r.pool, pool', r.ask, Sell, bound);
  }

  // ---------------------------------------------------------------- trading

  // The storage after the front order of `side` became `s`.
  function Taken(r: Rep, side: Side, s: Slot): Rep
    requires |r.Of(side).levels| == |r.Of(side).queues| == MAX_PRICE && 1 <= r.Of(side).cursor < MAX_PRICE
    requires r.Of(side).queues[PriceAt(side, r.Of(side).cursor)] != [] && Front(r.Of(side), side) < |r.pool|
  {
    var h := r.Of(side);
    var r' := r.(pool := r.pool[Front(h, side) := s]);
    if s.active then r' else r'.With(side, Unlinked(h, PriceAt(side, h.cursor), 1))
  }

  lemma TakeFromSide(r: Rep, bound: nat, side: Side, s: Slot)
    requires RepOk(r, bound) && FrontSlot(r.pool, r.Of(side), side, bound, s)
    ensures var r' := Taken(r, side, s);
      && HalfOk(r'.pool, r'.Of(side), side, bound) && Queues(r'.pool, r'.Of(side).queues)
      && List(r, side) != []
      && List(r', side) == (if s.active then [EntryOf(Front(r.Of(side), side), s)] else []) + List(r, side)[1..]
  {
    RepSide(r, bound, side);
    if s.active {
      ReplaceFront(r.pool, r.Of(side), side, bound, s);
    } else {
      DropFront(r.pool, r.Of(side), side, bound, s);
    }
  }

  lemma FrontEntry(r: Rep, bound: nat, side: Side, s: Slot)
    requires RepOk(r, bound) && FrontSlot(r.pool, r.Of(side), side, bound, s)
    ensures List(r, side) != []
    ensures List(r, side)[0] == EntryOf(Front(r.Of(side), side), r.pool[Front(r.Of(side), side)])
  {
    RepSide(r, bound, side);
    FrontSplit(r.pool, r.Of(side), side, bound);
  }

  // Trading with the front order rewrites or removes the first element of that side's list.
  lemma TakeStep(r: Rep, bound: nat, side: Side, s: Slot)
    requires RepOk(r, bound) && FrontSlot(r.pool, r.Of(side), side, bound, s) && SlotOk(s)
    ensures var r' := Taken(r, side, s);
      && RepOk(r', bound)
      && List(r, side) != []
      && List(r', side) == (if s.active then [EntryOf(Front(r.Of(side), side), s)] else []) + List(r, side)[1..]
      && List(r', side.Opposite()) == List(r, side.Opposite())
  {
    var r' := Taken(r, side, s);
    var other := side.Opposite();
    TakeFromSide(r, bound, side, s);
    RepSide(r, bound, side);
    RepSide(r, bound, other);
    FrontSide(r, bound, side, s);
    FrameSide(r.pool, r'.pool, r.Of(other), other, bound);
    Assemble(r', bound, side);
  }

  lemma FrontSide(r: Rep, bound: nat, side: Side, s: Slot)
    requires RepOk(r, bound) && FrontSlot(r.pool, r.Of(side), side, bound, s)
    ensures 0 < Front(r.Of(side), side) < bound && r.pool[Front(r.Of(side), side)].side == side
    ensures r.pool[Front(r.Of(side), side)].price == PriceAt(side, r.Of(side).cursor)
  {
    var h := r.Of(side);
    var p := PriceAt(side, h.cursor);
    assert LevelOk(r.pool, h.levels[p], h.queues[p], side, p, bound);
  }

  // What one trade of order `id` with the front order of `side` does, said on the lists.
  ghost predicate Took(r: Rep, r': Rep, side: Side, id: nat, events: seq<Event>) {
    && id < |r.pool| == |r'.pool| && List(r, side) != []
    && Swept(EntryOf(id, r'.pool[id]), List(r', side), events) == TradeOnce(EntryOf(id, r.pool[id]), List(r, side))
    && SameLink(r.pool[id], r'.pool[id]) && r'.pool[id].active == r.pool[id].active
    && List(r', side.Opposite()) == List(r, side.Opposite())
  }

  // The slots after a trade of quantity `qty` at the resting price.
  function AfterTrade(pool: seq<Slot>, id: nat, restingId: nat): seq<Slot>
    requires id < |pool| && restingId < |pool| && id != restingId
    requires pool[id].size + pool[id].qtyFilled < WORD && pool[restingId].size + pool[restingId].qtyFilled < WORD
  {
    var a, s := pool[id], pool[restingId];
    var qty := Min(a.size, s.size);
    pool[id := SlotTraded(a, restingId, s, s.price, qty)][restingId := SlotTraded(s, id, a, s.price, qty)]
  }

  // The two reports of a trade, from the slots after it.
  function FillReports(pool: seq<Slot>, id: nat, restingId: nat): seq<Event>
    requires id < |pool| && restingId < |pool|
  {
    [Report(EntryOf(restingId, pool[restingId]), OrderFilled), Report(EntryOf(id, pool[id]), OrderFilled)]
  }

  // A slot that is left without size is deactivated.
  function Settled(s: Slot): Slot { if s.size == 0 then s.(active := false) else s }

  // The front order is the head of its level, and `Unlinked` moves the head to its successor.
  lemma FrontLevel(r: Rep, side: Side, id: nat)
    requires RepOk(r, id) && FrontReady(r.pool, r.Of(side), side, id)
    ensures var price, f := PriceAt(side, r.Of(side).cursor), Front(r.Of(side), side);
      && 0 < f < id && r.Of(side).levels[price].head == f && SlotOk(r.pool[f]) && r.pool[f].side == side
      && Unlinked(r.Of(side), price, 1).levels[price] ==
         if r.pool[f].next == NONE then EMPTY_LEVEL else Level(r.pool[f].next, r.Of(side).levels[price].tail)
  {
    var h := r.Of(side);
    var p := PriceAt(side, h.cursor);
    assert LevelOk(r.pool, h.levels[p], h.queues[p], side, p, id);
    NextNode(r.pool, h.levels[p], h.queues[p], side, p, id, 0);
  }

  // The two slots of a trade agree with the entries traded.
  lemma TradedEntries(pool: seq<Slot>, id: nat, f: nat)
    requires id < |pool| && f < |pool| && id != f
    requires 0 < pool[id].size && pool[id].size + pool[id].qtyFilled < WORD
    requires SlotOk(pool[f]) && pool[f].active
    ensures var pool' := AfterTrade(pool, id, f);
      var agg, e := EntryOf(id, pool[id]), EntryOf(f, pool[f]);
      var qty := Min(agg.size, e.size);
      && |pool'| == |pool|
      && EntryOf(id, pool'[id]) == Traded(agg, e, e.price, qty)
      && EntryOf(f, pool'[f]) == Traded(e, agg, e.price, qty)
      && SameLink(pool[id], pool'[id]) && pool'[id].active == pool[id].active
      && SameLink(pool[f], pool'[f])
      && SlotOk(Settled(pool'[f])) && SameLink(pool[f], Settled(pool'[f]))
      && (Settled(pool'[f]).active <==> pool'[f].size > 0)
      && (Settled(pool'[f]).active ==> Settled(pool'[f]) == pool'[f] && pool'[id].size == 0)
      && pool[id := pool'[id]][f := Settled(pool'[f])] == pool'[f := Settled(pool'[f])]
  {
  }

  lemma TookStep(r: Rep, side: Side, id: nat)
    requires RepOk(r, id) && id < |r.pool|
    requires FrontReady(r.pool, r.Of(side), side, id)
    requires 0 < r.pool[id].size && r.pool[id].size + r.pool[id].qtyFilled < WORD
    ensures 0 < Front(r.Of(side), side) < id && SlotOk(r.pool[Front(r.Of(side), side)])
    ensures var f := Front(r.Of(side), side);
      var pool' := AfterTrade(r.pool, id, f);
      var r' := Taken(r.(pool := pool'), side, Settled(pool'[f]));
      && RepOk(r', id)
      && Took(r, r', side, id, FillReports(pool', id, f))
  {
    var f := Front(r.Of(side), side);
    FrontLevel(r, side, id);
    FrontEntry(r, id, side, r.pool[f]);
    TradedEntries(r.pool, id, f);
    var pool' := AfterTrade(r.pool, id, f);
    WriteAtBound(r, id, pool'[id]);
    TakeStep(r.(pool := r.pool[id := pool'[id]]), id, side, Settled(pool'[f]));
  }

  // A sweep in progress: what is left to do, from `agg` and `opp`, completes the whole sweep.
  predicate Underway(agg0: Entry, opp0: seq<Entry>, events: seq<Event>, agg: Entry, opp: seq<Entry>) {
    var whole, left := Sweep(agg0, opp0), Sweep(agg, opp);
    whole.agg == left.agg && whole.rest == left.rest && whole.events == events + left.events
  }

  lemma UnderwayStep(agg0: Entry, opp0: seq<Entry>, events: seq<Event>, agg: Entry, opp: seq<Entry>)
    requires Underway(agg0, opp0, events, agg, opp)
    requires agg.size > 0 && opp != [] && Crosses(agg, opp[0])
    ensures var now := TradeOnce(agg, opp);
      Underway(agg0, opp0, events + now.events, now.agg, now.rest)
  {
    var now := TradeOnce(agg, opp);
    var later := Sweep(now.agg, now.rest);
    Assoc(events, now.events, later.events);
  }

  // When the order is filled or the cursor has passed its limit, nothing is left to sweep.
  lemma SweepDone(r: Rep, side: Side, id: nat)
    requires RepOk(r, id) && id < |r.pool| && r.pool[id].side == side.Opposite()
    requires r.pool[id].size == 0 || r.Of(side).cursor > Rank(side, r.pool[id].price)
    ensures Sweep(EntryOf(id, r.pool[id]), List(r, side)) == Swept(EntryOf(id, r.pool[id]), List(r, side), [])
  {
    CursorBound(r, id, side);
  }

  // A level array after the front order of one price traded down to `s'`.
  function AfterFront(levels: seq<Level>, price: int, s': Slot): seq<Level>
    requires 0 <= price < |levels|
  {
    if s'.size > 0 then levels
    else levels[price := if s'.next == NONE then EMPTY_LEVEL else Level(s'.next, levels[price].tail)]
  }

  // Order `id` has traded with the head of a level, which was unlinked if used up.
  ghost predicate TradedLevel(r: Rep, r': Rep, side: Side, price: nat, id: nat, events: seq<Event>) {
    var h := r.Of(side);
    && price < |h.levels| && id < |r.pool| && h.levels[price].head < |r.pool| && h.levels[price].head != id
    && var f := h.levels[price].head;
    && r.pool[id].size + r.pool[id].qtyFilled < WORD && r.pool[f].size + r.pool[f].qtyFilled < WORD
    && var pool' := AfterTrade(r.pool, id, f);
    && r' == r.(pool := pool'[f := Settled(pool'[f])])
              .With(side, h.(levels := AfterFront(h.levels, price, pool'[f])))
    && events == FillReports(pool', id, f)
  }

  lemma TradedLevelIs(r: Rep, r': Rep, side: Side, price: nat, id: nat, events: seq<Event>)
    requires var h := r.Of(side);
      price < |h.levels| && id < |r.pool| && h.levels[price].head < |r.pool| && h.levels[price].head != id
    requires var f := r.Of(side).levels[price].head;
      r.pool[id].size + r.pool[id].qtyFilled < WORD && r.pool[f].size + r.pool[f].qtyFilled < WORD
    requires var f := r.Of(side).levels[price].head;
      var pool' := AfterTrade(r.pool, id, f);
      && r'.pool == pool'[f := Settled(pool'[f])]
      && r'.Of(side).levels == AfterFront(r.Of(side).levels, price, pool'[f])
      && events == FillReports(pool', id, f)
    requires r'.Of(side).queues == r.Of(side).queues && r'.Of(side).cursor == r.Of(side).cursor
    requires r'.Of(side.Opposite()) == r.Of(side.Opposite())
    ensures TradedLevel(r, r', side, price, id, events)
  {
  }

  // One side's level array and queues after its front order `s` traded down to `s'`.
  ghost predicate FrontTraded(h: Half, h': Half, price: int, s': Slot)
    requires |h.levels| == |h.queues| == MAX_PRICE && 0 <= price < MAX_PRICE && h.queues[price] != []
  {
    h' == if s'.size > 0 then h
          else
            var level := if s'.next == NONE then EMPTY_LEVEL else Level(s'.next, h.levels[price].tail);
            Half(h.levels[price := level], h.queues[price := h.queues[price][1..]], h.cursor)
  }

  lemma TookValue(r: Rep, r': Rep, side: Side, id: nat)
    requires RepOk(r, id) && id < |r.pool|
    requires FrontReady(r.pool, r.Of(side), side, id) && Front(r.Of(side), side) > 0
    requires 0 < r.pool[id].size && r.pool[id].size + r.pool[id].qtyFilled < WORD
    requires SlotOk(r.pool[Front(r.Of(side), side)])
    requires var f := Front(r.Of(side), side);
      var pool' := AfterTrade(r.pool, id, f);
      && r'.pool == pool'[f := Settled(pool'[f])]
      && FrontTraded(r.Of(side), r'.Of(side), PriceAt(side, r.Of(side).cursor), pool'[f])
      && r'.Of(side.Opposite()) == r.Of(side.Opposite())
    ensures RepOk(r', id)
    ensures var f := Front(r.Of(side), side);
      var pool' := AfterTrade(r.pool, id, f);
      Took(r, r', side, id, FillReports(pool', id, f))
    ensures var price := PriceAt(side, r.Of(side).cursor);
      var q, q' := r.Of(side).queues[price], r'.Of(side).queues[price];
      q' == q[1..] || (q' == q && r'.pool[id].size == 0)
  {
    FrontLevel(r, side, id);
    TookStep(r, side, id);
    var f := Front(r.Of(side), side);
    TradedEntries(r.pool, id, f);
    var pool' := AfterTrade(r.pool, id, f);
    assert r' == Taken(r.(pool := pool'), side, Settled(pool'[f]));
  }

  // ---------------------------------------------------------------- resting

  // A cursor moved up to a rank at which an order rests.
  function RaisedCursor(h: Half, rank: int): Half { if rank < h.cursor then h.(cursor := rank) else h }

  lemma RaiseOk(r: Rep, bound: nat, side: Side, rank: int)
    requires RepOk(r, bound) && 1 <= rank
    ensures HalfOk(r.pool, RaisedCursor(r.Of(side), rank), side, bound)
  {
    RepSide(r, bound, side);
    if rank < r.Of(side).cursor {
      RetreatCursor(r.pool, r.Of(side), side, bound, rank);
    }
  }

  // The storage after slot `s` was linked as order `id`, with the cursor moved up to it.
  function Rested(r: Rep, id: nat, s: Slot): Rep
    requires |r.Of(s.side).levels| == |r.Of(s.side).queues| == MAX_PRICE && s.price < MAX_PRICE
    requires id < |r.pool| && r.Of(s.side).levels[s.price].tail < |r.pool|
  {
    var h := r.Of(s.side);
    r.(pool := LinkedPool(r.pool, h.levels[s.price], id, s))
     .With(s.side, LinkedHalf(RaisedCursor(h, Rank(s.side, s.price)), s.price, id))
  }

  predicate FreshIn(r: Rep, id: nat)
    requires |r.bid.queues| == |r.ask.queues| == MAX_PRICE
  {
    forall p :: 0 <= p < MAX_PRICE ==> id !in r.bid.queues[p] && id !in r.ask.queues[p]
  }

  lemma AtBoundFresh(r: Rep, bound: nat)
    requires RepOk(r, bound)
    ensures |r.bid.queues| == |r.ask.queues| == MAX_PRICE && FreshIn(r, bound)
    ensures forall side: Side, p :: 0 <= p < MAX_PRICE ==> Fresh(r.Of(side), p, bound)
  {
    forall p | 0 <= p < MAX_PRICE
      ensures bound !in r.bid.queues[p] && bound !in r.ask.queues[p]
      ensures forall i :: 0 <= i < |r.bid.queues[p]| ==> r.bid.queues[p][i] < bound
      ensures forall i :: 0 <= i < |r.ask.queues[p]| ==> r.ask.queues[p][i] < bound
    {
      assert LevelOk(r.pool, r.bid.levels[p], r.bid.queues[p], Buy, p, bound);
      assert LevelOk(r.pool, r.ask.levels[p], r.ask.queues[p], Sell, p, bound);
    }
  }

  ghost predicate CanRest(r: Rep, bound: nat, id: nat, s: Slot) {
    && RepOk(r, bound) && 0 < id <= bound && id < |r.pool|
    && SlotOk(s) && s.active && s.next == NONE
    && (id < bound ==> !r.pool[id].active)
    && FreshIn(r, id) && Fresh(r.Of(s.side), s.price, id)
    && Rank(s.side, s.price) + r.Of(s.side.Opposite()).cursor > MAX_PRICE
  }

  lemma RestSides(r: Rep, bound: nat, id: nat, s: Slot)
    requires CanRest(r, bound, id, s)
    ensures r.Of(s.side).levels[s.price].tail < |r.pool|
    ensures var r', bound', other := Rested(r, id, s), Grown(bound, id), s.side.Opposite();
      && HalfOk(r'.pool, r'.Of(s.side), s.side, bound') && Queues(r'.pool, r'.Of(s.side).queues)
      && HalfOk(r'.pool, r'.Of(other), other, bound') && Queues(r'.pool, r'.Of(other).queues)
      && List(r', s.side) == Insert(List(r, s.side), EntryOf(id, s))
      && List(r', other) == List(r, other)
  {
    var side, other := s.side, s.side.Opposite();
    RepSide(r, bound, side);
    RepSide(r, bound, other);
    var h := RaisedCursor(r.Of(side), Rank(side, s.price));
    RaiseOk(r, bound, side, Rank(side, s.price));
    TailInPool(r.pool, r.Of(side), side, bound, s.price);
    assert Fresh(h, s.price, id);
    LinkOk(r.pool, h, side, bound, id, s);
    LinkInserts(r.pool, h, side, bound, id, s);
    LinkOther(r.pool, r.Of(other), other, bound, h, id, s);
  }

  // Resting an order inserts it in price-time order, provided the other cursor is beyond its
  // price.
  lemma RestStep(r: Rep, bound: nat, id: nat, s: Slot)
    requires CanRest(r, bound, id, s)
    ensures r.Of(s.side).levels[s.price].tail < |r.pool|
    ensures var r' := Rested(r, id, s);
      && RepOk(r', Grown(bound, id))
      && List(r', s.side) == Insert(List(r, s.side), EntryOf(id, s))
      && List(r', s.side.Opposite()) == List(r, s.side.Opposite())
  {
    RestSides(r, bound, id, s);
    TailInPool(r.pool, r.Of(s.side), s.side, bound, s.price);
    assert PoolOk(Rested(r, id, s).pool, Grown(bound, id));
    Assemble(Rested(r, id, s), Grown(bound, id), s.side);
  }

  // A fully filled incoming order leaves both lists as they are.
  lemma RetireStep(r: Rep, bound: nat)
    requires RepOk(r, bound) && bound < |r.pool| && SlotOk(r.pool[bound]) && !r.pool[bound].active
    ensures RepOk(r, bound + 1)
  {
    HalfGrows(r.pool, r.bid, Buy, bound);
    HalfGrows(r.pool, r.ask, Sell, bound);
  }

  lemma HalfGrows(pool: seq<Slot>, h: Half, side: Side, bound: nat)
    requires bound < |pool| && HalfOk(pool, h, side, bound) && !pool[bound].active
    ensures HalfOk(pool, h, side, bound + 1)
  {
    forall p | 0 <= p < MAX_PRICE ensures LevelOk(pool, h.levels[p], h.queues[p], side, p, bound + 1) {
      LevelFrame(pool, pool, h.levels[p], h.queues[p], side, p, bound, bound + 1);
    }
    forall id | 0 <= id < bound + 1 ensures Placed(pool, h, side, id) {
      if id < bound {
        assert Placed(pool, h, side, id);
      }
    }
  }

  // ---------------------------------------------------------------- cancelling

  lemma CancelStep(r: Rep, bound: nat, id: nat, s: Slot)
    requires RepOk(r, bound) && id < bound && SlotOk(s) && !s.active && SameLink(r.pool[id], s)
    ensures var r' := r.(pool := r.pool[id := s]);
      && RepOk(r', bound)
      && List(r', Buy) == Remove(List(r, Buy), id)
      && List(r', Sell) == Remove(List(r, Sell), id)
  {
    Deactivate(r.pool, r.bid, Buy, bound, id, s);
    Deactivate(r.pool, r.ask, Sell, bound, id, s);
  }

  function BestRank(es: seq<Entry>, side: Side): int { if es == [] then MAX_PRICE else Rank(side, es[0].price) }

  // Setting a cursor to the true best price keeps the invariant and both lists.
  lemma TightenStep(r: Rep, bound: nat, side: Side)
    requires RepOk(r, bound) && r.Of(side).cursor <= BestRank(List(r, side), side)
    ensures var r' := r.With(side, r.Of(side).(cursor := BestRank(List(r, side), side)));
      RepOk(r', bound) && List(r', Buy) == List(r, Buy) && List(r', Sell) == List(r, Sell)
  {
    RepSide(r, bound, side);
    TightenCursor(r.pool, r.Of(side), side, bound, BestRank(List(r, side), side));
    Assemble(r.With(side, r.Of(side).(cursor := BestRank(List(r, side), side))), bound, side);
  }

  lemma CursorBound(r: Rep, bound: nat, side: Side)
    requires RepOk(r, bound)
    ensures 1 <= r.Of(side).cursor <= BestRank(List(r, side), side) <= MAX_PRICE
  {
    RepSide(r, bound, side);
    CursorSkips(r.pool, r.Of(side), side, bound);
    FlatMembers(r.pool, r.Of(side), side, bound, r.Of(side).cursor);
  }

  // An id is resting exactly when its slot is active, and the list shows the slot.
  lemma ActiveIsListed(r: Rep, bound: nat, id: nat)
    requires RepOk(r, bound) && id < bound
    ensures r.pool[id].active <==> Has(List(r, Buy) + List(r, Sell), id)
    ensures r.pool[id].active ==> Find(List(r, Buy) + List(r, Sell), id) == EntryOf(id, r.pool[id])
  {
    var all := List(r, Buy) + List(r, Sell);
    FlatMembers(r.pool, r.bid, Buy, bound, 1);
    FlatMembers(r.pool, r.ask, Sell, bound, 1);
    assert forall i :: 0 <= i < |all| ==> LiveEntry(r.pool, all[i], all[i].side, bound);
    if r.pool[id].active {
      var side := r.pool[id].side;
      RepSide(r, bound, side);
      assert Placed(r.pool, r.Of(side), side, id);
      FlatContains(r.pool, r.Of(side).queues, side, 1, id);
      assert EntryOf(id, r.pool[id]) in all;
      var e := Find(all, id);
      var i :| 0 <= i < |all| && all[i] == e;
      assert LiveEntry(r.pool, all[i], all[i].side, bound);
    }
  }

  // The length of a queue, as a termination measure.
  function QueueLength(qs: seq<seq<nat>>, price: int): nat { if 0 <= price < |qs| then |qs[price]| else 0 }

  lemma HeadTells(r: Rep, bound: nat, side: Side, price: int)
    requires RepOk(r, bound) && 0 <= price < MAX_PRICE
    ensures r.Of(side).levels[price].head == NONE <==> r.Of(side).queues[price] == []
    ensures r.Of(side).queues[price] != [] ==> 0 < r.Of(side).queues[price][0] < bound
  {
    assert LevelOk(r.pool, r.Of(side).levels[price], r.Of(side).queues[price], side, price, bound);
  }

  // One round of the matching loop on `side`: an empty price is passed, or one trade is made.
  ghost predicate Round(r: Rep, r': Rep, side: Side, id: nat, now: seq<Event>) {
    || (now == [] && r'.pool == r.pool && List(r', Buy) == List(r, Buy) && List(r', Sell) == List(r, Sell))
    || (Took(r, r', side, id, now) && Rank(side, List(r, side)[0].price) == r.Of(side).cursor)
  }

  // Every round makes progress: a price passed, a node unlinked, or size filled.
  predicate Progress(r: Rep, r': Rep, side: Side, id: nat)
    requires id < |r.pool| && id < |r'.pool|
  {
    var h, h' := r.Of(side), r'.Of(side);
    var price := PriceAt(side, h.cursor);
    || h.cursor < h'.cursor
    || (h.cursor == h'.cursor
        && (|| QueueLength(h'.queues, price) < QueueLength(h.queues, price)
            || (QueueLength(h'.queues, price) == QueueLength(h.queues, price) && r'.pool[id].size < r.pool[id].size)))
  }

  lemma UnderwayRound(agg0: Entry, opp0: seq<Entry>, events: seq<Event>, r: Rep, r': Rep, side: Side, id: nat,
                      now: seq<Event>)
    requires id < |r.pool| == |r'.pool| && Round(r, r', side, id, now)
    requires Underway(agg0, opp0, events, EntryOf(id, r.pool[id]), List(r, side))
    requires r.pool[id].size > 0 && r.pool[id].side == side.Opposite()
    requires r.Of(side).cursor <= Rank(side, r.pool[id].price)
    ensures Underway(agg0, opp0, events + now, EntryOf(id, r'.pool[id]), List(r', side))
    ensures List(r', side.Opposite()) == List(r, side.Opposite())
    ensures SameLink(r.pool[id], r'.pool[id]) && r'.pool[id].active == r.pool[id].active
    ensures r'.pool[id].size + r'.pool[id].qtyFilled == r.pool[id].size + r.pool[id].qtyFilled
  {
    if now == [] {
      assert events + now == events;
    } else {
      UnderwayStep(agg0, opp0, events, EntryOf(id, r.pool[id]), List(r, side));
    }
  }
}
