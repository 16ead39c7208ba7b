/** The matching engine (matchengine/book.go): a slot pool, one linked queue per price and side
    threaded through the pool, lazy deletion, and two price cursors. */
module MatchEngine {
  import opened EngineTypes
  import opened PriceTime
  import opened BookFacts
  import opened Levels
  import opened LevelSteps
  import opened BookRep
  import opened BookImport

  class OrderBook {
    const pool: array<Slot>
    const buys: array<Level>
    const sells: array<Level>
    var poolTop: nat
    var bidMax: nat
    var askMin: nat
    // The ids linked at each price.
    ghost var bidQueues: seq<seq<nat>>
    ghost var askQueues: seq<seq<nat>>

    // -------------------------------------------------------------- abstraction

    // The storage as a value.
    ghost function R(): Rep
      reads this, pool, buys, sells
    {
      Rep(pool[..], Half(buys[..], bidQueues, MAX_PRICE - bidMax), Half(sells[..], askQueues, askMin))
    }

    // The storage invariant, for the ids below `bound`.
    ghost predicate Linked(bound: nat)
      reads this, pool, buys, sells
    {
      buys != sells && RepOk(R(), bound)
    }

    ghost function Abs(): Book
      reads this, pool, buys, sells
    {
      Book(List(R(), Buy), List(R(), Sell), poolTop)
    }

    ghost predicate Valid()
      reads this, pool, buys, sells
    {
      Linked(poolTop) && WellFormed(Abs())
    }

    constructor ()
      ensures Valid() && Abs() == EMPTY
      ensures fresh(pool) && fresh(buys) && fresh(sells)
    {
      pool := new Slot[MAX_ORDERS](_ => EMPTY_SLOT);
      buys := new Level[MAX_PRICE](_ => EMPTY_LEVEL);
      sells := new Level[MAX_PRICE](_ => EMPTY_LEVEL);
      poolTop := 1; // 0 is the NONE sentinel
      bidMax := 0;
      askMin := MAX_PRICE;
      bidQueues := seq(MAX_PRICE, _ => []);
      askQueues := seq(MAX_PRICE, _ => []);
      new;
      assert Blank(R());
      BlankOk(R(), 1);
    }

    method Reset()
      requires pool.Length == MAX_ORDERS && buys.Length == sells.Length == MAX_PRICE
      modifies this, pool, buys, sells
      ensures Blank(R()) && poolTop == 1
    {
      forall i | 0 <= i < pool.Length {
        pool[i] := EMPTY_SLOT;
      }
      forall p | 0 <= p < buys.Length {
        buys[p] := EMPTY_LEVEL;
      }
      forall p | 0 <= p < sells.Length {
        sells[p] := EMPTY_LEVEL;
      }
      poolTop := 1;
      bidMax := 0;
      askMin := MAX_PRICE;
      bidQueues := seq(MAX_PRICE, _ => []);
      askQueues := seq(MAX_PRICE, _ => []);
    }

    // -------------------------------------------------------------- reading the top of book

    // The first active order of one level.
    method FirstActive(level: Level, side: Side, price: nat, ghost q: seq<nat>, ghost bound: nat) returns (h: nat)
      requires bound <= pool.Length && LevelOk(pool[..], level, q, side, price, bound)
      ensures InPool(pool[..], q) && (h == NONE <==> Live(pool[..], q) == [])
    {
      ghost var slots := pool[..];
      ghost var i := 0;
      assert InPool(slots, q) && q[0..] == q;
      h := level.head;
      while h != NONE && !pool[h].active
        invariant 0 <= i <= |q| && h == NodeAt(q, i)
        invariant InPool(slots, q[i..]) && Live(slots, q) == Live(slots, q[i..])
        decreases |q| - i
      {
        NextNode(slots, level, q, side, price, bound, i);
        LiveFrom(slots, q, i);
        h := pool[h].next;
        i := i + 1;
      }
      if h != NONE {
        LiveFrom(slots, q, i);
      }
    }

    method BestBid(ghost bound: nat) returns (best: nat)
      requires Linked(bound)
      ensures best == TopPrice(List(R(), Buy))
    {
      CursorSkips(pool[..], R().bid, Buy, bound);
      var p := bidMax;
      while p > 0
        invariant 0 <= p <= bidMax < MAX_PRICE
        invariant List(R(), Buy) == Flat(pool[..], bidQueues, Buy, MAX_PRICE - p)
      {
        assert LevelOk(pool[..], buys[..][p], bidQueues[p], Buy, p, bound);
        var h := FirstActive(buys[p], Buy, p, bidQueues[p], bound);
        if h != NONE {
          LevelMembers(pool[..], R().bid, Buy, bound, p);
          return p;
        }
        p := p - 1;
      }
      return 0;
    }

    method BestAsk(ghost bound: nat) returns (best: nat)
      requires Linked(bound)
      ensures best == TopPrice(List(R(), Sell))
    {
      CursorSkips(pool[..], R().ask, Sell, bound);
      var p := askMin;
      while p < MAX_PRICE
        invariant askMin <= p <= MAX_PRICE
        invariant List(R(), Sell) == Flat(pool[..], askQueues, Sell, p)
      {
        assert LevelOk(pool[..], sells[..][p], askQueues[p], Sell, p, bound);
        var h := FirstActive(sells[p], Sell, p, askQueues[p], bound);
        if h != NONE {
          LevelMembers(pool[..], R().ask, Sell, bound, p);
          return p;
        }
        p := p + 1;
      }
      return 0;
    }

    // The 32-bit sum of the active sizes of one level.
    method LevelQty(level: Level, side: Side, price: nat, ghost q: seq<nat>, ghost bound: nat) returns (qty: nat)
      requires bound <= pool.Length && LevelOk(pool[..], level, q, side, price, bound)
      ensures InPool(pool[..], q) && qty == SumAt(Live(pool[..], q), price) % WORD
    {
      ghost var slots := pool[..];
      ghost var i := 0;
      ghost var seen: nat := 0;
      assert InPool(slots, q) && q[0..] == q;
      qty := 0;
      var cur := level.head;
      while cur != NONE
        invariant 0 <= i <= |q| && cur == NodeAt(q, i)
        invariant qty == seen % WORD && InPool(slots, q[i..])
        invariant seen + SumAt(Live(slots, q[i..]), price) == SumAt(Live(slots, q), price)
        decreases |q| - i
      {
        NextNode(slots, level, q, side, price, bound, i);
        SumFrom(slots, q, i, price);
        if pool[cur].active {
          WrapAdd(seen, pool[cur].size);
          qty, seen := (qty + pool[cur].size) % WORD, seen + pool[cur].size;
        }
        cur := pool[cur].next;
        i := i + 1;
      }
    }

    method BestBidQty(ghost bound: nat) returns (qty: nat)
      requires Linked(bound)
      ensures qty == TopQty(List(R(), Buy)) % WORD
    {
      var p := BestBid(bound);
      QtyOfLevel(pool[..], R().bid, Buy, bound);
      if p == 0 {
        return 0;
      }
      assert LevelOk(pool[..], buys[..][p], bidQueues[p], Buy, p, bound);
      qty := LevelQty(buys[p], Buy, p, bidQueues[p], bound);
    }

    method BestAskQty(ghost bound: nat) returns (qty: nat)
      requires Linked(bound)
      ensures qty == TopQty(List(R(), Sell)) % WORD
    {
      var p := BestAsk(bound);
      QtyOfLevel(pool[..], R().ask, Sell, bound);
      if p == 0 {
        return 0;
      }
      assert LevelOk(pool[..], sells[..][p], askQueues[p], Sell, p, bound);
      qty := LevelQty(sells[p], Sell, p, askQueues[p], bound);
    }

    // -------------------------------------------------------------- matching

    method Alloc(o: Order) returns (id: nat)
      requires Linked(poolTop) && poolTop < MAX_ORDERS
      modifies `poolTop, pool
      ensures id == old(poolTop) && poolTop == id + 1
      ensures Linked(id)
      ensures R() == old(R()).(pool := old(pool[..])[id := Slot(o.trader, o.size, NONE, o.price, o.side, true, 0, [])])
      ensures List(R(), Buy) == old(List(R(), Buy)) && List(R(), Sell) == old(List(R(), Sell))
    {
      id := poolTop;
      poolTop := poolTop + 1;
      pool[id] := Slot(o.trader, o.size, NONE, o.price, o.side, true, 0, []);
      WriteAtBound(old(R()), id, pool[id]);
    }

    // Moves a level's head past its cancelled orders.
    method SkipInactive(level: array<Level>, side: Side, price: nat, ghost q: seq<nat>, ghost bound: nat)
      returns (ghost i: int)
      requires bound <= pool.Length && price < level.Length
      requires LevelOk(pool[..], level[price], q, side, price, bound)
      modifies level
      ensures 0 <= i <= |q|
      ensures forall j :: 0 <= j < i ==> q[j] < pool.Length && !pool[q[j]].active
      ensures i < |q| ==> q[i] < pool.Length && pool[q[i]].active
      ensures level[..] == old(level[..])[price := if i < |q| then Level(q[i], old(level[price].tail)) else EMPTY_LEVEL]
    {
      ghost var before := level[price];
      i := 0;
      while level[price].head != NONE && !pool[level[price].head].active
        invariant 0 <= i <= |q|
        invariant level[..] == old(level[..])[price := Level(NodeAt(q, i), before.tail)]
        invariant forall j :: 0 <= j < i ==> q[j] < pool.Length && !pool[q[j]].active
        decreases |q| - i
      {
        NextNode(pool[..], before, q, side, price, bound, i);
        level[price] := level[price].(head := pool[level[price].head].next);
        i := i + 1;
      }
      if level[price].head == NONE {
        level[price] := level[price].(tail := NONE);
      }
    }

    // Unlinks the cancelled orders at the front of a level of one side.
    method SkipFront(side: Side, price: nat, ghost bound: nat)
      requires Linked(bound) && price < MAX_PRICE
      modifies `bidQueues, `askQueues, buys, sells
      ensures Linked(bound)
      ensures List(R(), Buy) == old(List(R(), Buy)) && List(R(), Sell) == old(List(R(), Sell))
      ensures R().pool == old(R()).pool && R().Of(side.Opposite()) == old(R()).Of(side.Opposite())
      ensures R().Of(side).cursor == old(R()).Of(side).cursor
      ensures |R().Of(side).queues[price]| <= |old(R()).Of(side).queues[price]|
      ensures var q := R().Of(side).queues[price]; q != [] ==> pool[q[0]].active
    {
      ghost var r := R();
      ghost var q := r.Of(side).queues[price];
      assert LevelOk(r.pool, r.Of(side).levels[price], q, side, price, bound);
      ghost var i := SkipInactive(if side.Buy? then buys else sells, side, price, q, bound);
      if side.Buy? {
        bidQueues := bidQueues[price := q[i..]];
      } else {
        askQueues := askQueues[price := q[i..]];
      }
      assert R() == r.With(side, Unlinked(r.Of(side), price, i));
      SkipStep(r, bound, side, price, i);
    }

    // One fill between the incoming order and a resting one, with its two reports.
    method Trade(id: nat, restingId: nat) returns (events: seq<Event>)
      requires id < pool.Length && restingId < pool.Length && id != restingId
      requires pool[id].size + pool[id].qtyFilled < WORD && pool[restingId].size + pool[restingId].qtyFilled < WORD
      modifies pool
      ensures pool[..] == AfterTrade(old(pool[..]), id, restingId)
      ensures events == FillReports(pool[..], id, restingId)
    {
      var fill := Min(pool[id].size, pool[restingId].size);
      var price := pool[restingId].price;
      var resting := pool[restingId];
      pool[id] := pool[id].(size := pool[id].size - fill,
                            qtyFilled := pool[id].qtyFilled + fill,
                            fills := pool[id].fills + [Match(restingId, TraderStr(resting.trader), price, fill)]);
      pool[restingId] := resting.(size := resting.size - fill,
                                  qtyFilled := resting.qtyFilled + fill,
                                  fills := resting.fills + [Match(id, TraderStr(pool[id].trader), price, fill)]);
      resting := pool[restingId];
      events := [
        OrderEvent(restingId, TraderStr(resting.trader), OrderFilled, resting.qtyFilled, resting.size, resting.fills,
                   Unspecified),
        OrderEvent(id, TraderStr(pool[id].trader), OrderFilled, pool[id].qtyFilled, pool[id].size, pool[id].fills,
                   Unspecified)
      ];
    }

    // Deactivates a used-up order and moves its level's head past it.
    method Consume(level: array<Level>, price: nat, restingId: nat)
      requires restingId < pool.Length && price < level.Length
      modifies pool, level
      ensures pool[..] == old(pool[..])[restingId := old(pool[restingId]).(active := false)]
      ensures var next := old(pool[restingId].next);
        level[..] == old(level[..])[price := if next == NONE then EMPTY_LEVEL else Level(next, old(level[price].tail))]
    {
      pool[restingId] := pool[restingId].(active := false);
      level[price] := level[price].(head := pool[restingId].next);
      if level[price].head == NONE {
        level[price] := level[price].(tail := NONE);
      }
    }

    // Trades with a resting order at the head of its level, unlinking it when it is used up.
    method TradeAt(level: array<Level>, price: nat, id: nat) returns (events: seq<Event>)
      requires price < level.Length && id < pool.Length
      requires level[price].head < pool.Length && level[price].head != id
      requires pool[id].size + pool[id].qtyFilled < WORD
      requires pool[level[price].head].size + pool[level[price].head].qtyFilled < WORD
      modifies pool, level
      ensures var f := old(level[price].head);
        var pool' := AfterTrade(old(pool[..]), id, f);
        && pool[..] == pool'[f := Settled(pool'[f])]
        && level[..] == AfterFront(old(level[..]), price, pool'[f])
        && events == FillReports(pool', id, f)
    {
      var restingId := level[price].head;
      events := Trade(id, restingId);
      ghost var pool' := pool[..];
      if pool[restingId].size == 0 {
        Consume(level, price, restingId);
      }
      assert pool[..] == pool'[restingId := Settled(pool'[restingId])];
    }

    // The same at a level of one side.
    method TradeLevel(side: Side, price: nat, id: nat) returns (events: seq<Event>)
      requires buys != sells && buys.Length == sells.Length == MAX_PRICE && price < MAX_PRICE && id < pool.Length
      requires R().Of(side).levels[price].head < pool.Length && R().Of(side).levels[price].head != id
      requires pool[id].size + pool[id].qtyFilled < WORD
      requires var f := R().Of(side).levels[price].head; pool[f].size + pool[f].qtyFilled < WORD
      modifies pool, buys, sells
      ensures TradedLevel(old(R()), R(), side, price, id, events)
    {
      ghost var r := R();
      if side.Buy? {
        events := TradeAt(buys, price, id);
        TradedLevelIs(r, R(), side, price, id, events);
      } else {
        events := TradeAt(sells, price, id);
        TradedLevelIs(r, R(), side, price, id, events);
      }
    }

    method TradeFront(side: Side, price: nat, id: nat) returns (events: seq<Event>)
      requires buys != sells && buys.Length == sells.Length == |bidQueues| == |askQueues| == MAX_PRICE
      requires price < MAX_PRICE && id < pool.Length
      requires var h := R().Of(side);
        var f := h.levels[price].head;
        && h.queues[price] != [] && h.queues[price][0] == f < pool.Length && f != id
        && pool[f].size + pool[f].qtyFilled < WORD
      requires pool[id].size + pool[id].qtyFilled < WORD
      modifies `bidQueues, `askQueues, pool, buys, sells
      ensures var r, r' := old(R()), R();
        var f := r.Of(side).levels[price].head;
        var pool' := AfterTrade(r.pool, id, f);
        && r'.pool == pool'[f := Settled(pool'[f])]
        && FrontTraded(r.Of(side), r'.Of(side), price, pool'[f])
        && r'.Of(side.Opposite()) == r.Of(side.Opposite())
        && events == FillReports(pool', id, f)
    {
      ghost var f := R().Of(side).levels[price].head;
      events := TradeLevel(side, price, id);
      if pool[f].size == 0 {
        Unqueue(side, price);
      }
    }

    ghost method Unqueue(side: Side, price: nat)
      requires buys.Length == sells.Length == |bidQueues| == |askQueues| == MAX_PRICE && price < MAX_PRICE
      requires R().Of(side).queues[price] != []
      modifies `bidQueues, `askQueues
      ensures var h := old(R()).Of(side);
        R() == old(R()).With(side, h.(queues := h.queues[price := h.queues[price][1..]]))
    {
      if side.Buy? {
        bidQueues := bidQueues[price := bidQueues[price][1..]];
      } else {
        askQueues := askQueues[price := askQueues[price][1..]];
      }
    }

    // Trades with the front order at the cursor of one side.
    method TakeFront(side: Side, price: nat, id: nat) returns (events: seq<Event>)
      requires Linked(id) && id < MAX_ORDERS
      requires FrontReady(R().pool, R().Of(side), side, id) && price == PriceAt(side, R().Of(side).cursor)
      requires 0 < pool[id].size && pool[id].size + pool[id].qtyFilled < WORD
      modifies `bidQueues, `askQueues, pool, buys, sells
      ensures Linked(id) && Took(old(R()), R(), side, id, events)
      ensures R().Of(side.Opposite()) == old(R()).Of(side.Opposite())
      ensures R().Of(side).cursor == old(R()).Of(side).cursor
      ensures var q, q' := old(R()).Of(side).queues[price], R().Of(side).queues[price];
        q' == q[1..] || (q' == q && pool[id].size == 0)
    {
      ghost var r := R();
      FrontLevel(r, side, id);
      events := TradeFront(side, price, id);
      TookValue(r, R(), side, id);
    }

    method Enqueue(level: array<Level>, price: nat, id: nat)
      requires price < level.Length && id < pool.Length && level[price].tail < pool.Length
      modifies pool, level
      ensures pool[..] == LinkedPool(old(pool[..]), old(level[price]), id, old(pool[id]).(next := NONE))
      ensures var head := if old(level[price].tail) != NONE then old(level[price].head) else id;
        level[..] == old(level[..])[price := Level(head, id)]
    {
      pool[id] := pool[id].(next := NONE);
      if level[price].tail != NONE {
        pool[level[price].tail] := pool[level[price].tail].(next := id);
      } else {
        level[price] := level[price].(head := id);
      }
      level[price] := level[price].(tail := id);
    }

    // Links an order at the end of its price and moves the cursor up to it.
    method Link(id: nat)
      requires buys != sells && buys.Length == sells.Length == |bidQueues| == |askQueues| == MAX_PRICE
      requires id < pool.Length && pool[id].price < MAX_PRICE && pool[id].next == NONE
      requires R().Of(pool[id].side).levels[pool[id].price].tail < pool.Length
      modifies `bidQueues, `askQueues, `bidMax, `askMin, pool, buys, sells
      ensures R() == Rested(old(R()), id, old(pool[id]))
    {
      var price := pool[id].price;
      assert pool[id].(next := NONE) == pool[id];
      if pool[id].side.Buy? {
        Enqueue(buys, price, id);
        bidQueues := bidQueues[price := bidQueues[price] + [id]];
        if price > bidMax {
          bidMax := price;
        }
      } else {
        Enqueue(sells, price, id);
        askQueues := askQueues[price := askQueues[price] + [id]];
        if price < askMin {
          askMin := price;
        }
      }
    }

    // Rests what is left of the incoming order, or retires it when nothing is left.
    method Rest(id: nat) returns (events: seq<Event>)
      requires Linked(id) && id < MAX_ORDERS
      requires var s := pool[id];
        && s.active && s.next == NONE && 0 < s.price < MAX_PRICE && s.size + s.qtyFilled < WORD
        && (s.size > 0 ==> Rank(s.side, s.price) + R().Of(s.side.Opposite()).cursor > MAX_PRICE)
      modifies `bidQueues, `askQueues, `bidMax, `askMin, pool, buys, sells
      ensures Linked(id + 1)
      ensures var s, e := old(pool[id]), old(EntryOf(id, pool[id]));
        && List(R(), s.side) == OwnSide(old(List(R(), pool[id].side)), e)
        && List(R(), s.side.Opposite()) == old(List(R(), pool[id].side.Opposite()))
        && events == RestReport(e)
    {
      ghost var r := R();
      var s := pool[id];
      if s.size > 0 {
        AtBoundFresh(r, id);
        assert CanRest(r, id, id, s) by { assert Fresh(r.Of(s.side), s.price, id); }
        RestStep(r, id, id, s);
        Link(id);
        events := [OrderEvent(id, TraderStr(s.trader), OrderAccepted, s.qtyFilled, s.size, s.fills, Unspecified)];
      } else {
        pool[id] := pool[id].(active := false);
        WriteAtBound(r, id, pool[id]);
        RetireStep(R(), id);
        events := [];
      }
    }

    // Moves a cursor past an empty price.
    method Advance(side: Side, ghost bound: nat)
      requires Linked(bound) && R().Of(side).cursor < MAX_PRICE
      requires R().Of(side).queues[PriceAt(side, R().Of(side).cursor)] == []
      modifies `bidMax, `askMin
      ensures Linked(bound) && R() == old(R()).With(side, old(R()).Of(side).(cursor := old(R()).Of(side).cursor + 1))
      ensures List(R(), Buy) == old(List(R(), Buy)) && List(R(), Sell) == old(List(R(), Sell))
    {
      AdvanceStep(R(), bound, side);
      if side.Buy? {
        bidMax := bidMax - 1;
      } else {
        askMin := askMin + 1;
      }
    }

    // Trades with the front order and passes the price when that empties it.
    method TradeRound(side: Side, price: nat, id: nat) returns (now: seq<Event>)
      requires Linked(id) && id < MAX_ORDERS
      requires FrontReady(R().pool, R().Of(side), side, id) && price == PriceAt(side, R().Of(side).cursor)
      requires 0 < pool[id].size && pool[id].size + pool[id].qtyFilled < WORD
      modifies `bidQueues, `askQueues, `bidMax, `askMin, pool, buys, sells
      ensures Linked(id) && Took(old(R()), R(), side, id, now) && Progress(old(R()), R(), side, id)
    {
      now := TakeFront(side, price, id);
      HeadTells(R(), id, side, price);
      if (if side.Buy? then buys[price].head else sells[price].head) == NONE {
        Advance(side, id);
      }
    }

    // One round of matching at the cursor price of one side.
    method SweepFront(side: Side, price: nat, id: nat) returns (now: seq<Event>)
      requires Linked(id) && id < MAX_ORDERS
      requires R().Of(side).cursor < MAX_PRICE && price == PriceAt(side, R().Of(side).cursor)
      requires 0 < pool[id].size && pool[id].size + pool[id].qtyFilled < WORD
      modifies `bidQueues, `askQueues, `bidMax, `askMin, pool, buys, sells
      ensures Linked(id) && Round(old(R()), R(), side, id, now) && Progress(old(R()), R(), side, id)
    {
      SkipFront(side, price, id);
      HeadTells(R(), id, side, price);
      if (if side.Buy? then buys[price].head else sells[price].head) == NONE {
        Advance(side, id);
        now := [];
      } else {
        ghost var r := R();
        FrontEntry(r, id, side, r.pool[Front(r.Of(side), side)]);
        FrontSide(r, id, side, r.pool[Front(r.Of(side), side)]);
        now := TradeRound(side, price, id);
      }
    }

    // The incoming order's slot during a sweep.
    ghost predicate Taking(id: nat, o: Order)
      reads pool
      requires id < pool.Length
    {
      var s := pool[id];
      && s.active && s.next == NONE && s.side == o.side && s.price == o.price
      && s.size + s.qtyFilled == o.size
    }

    // The loop of MatchBuy.
    method SweepAsks(id: nat, order: Order) returns (events: seq<Event>)
      requires Linked(id) && id < MAX_ORDERS
      requires order.side == Sell.Opposite() && 0 < order.price && Taking(id, order)
      requires EntryOf(id, pool[id]) == Incoming(id, order)
      modifies `bidQueues, `askQueues, `bidMax, `askMin, pool, buys, sells
      ensures Linked(id) && Taking(id, order)
      ensures Swept(EntryOf(id, pool[id]), List(R(), Sell), events) == Sweep(Incoming(id, order), old(List(R(), Sell)))
      ensures List(R(), Sell.Opposite()) == old(List(R(), Sell.Opposite()))
      ensures pool[id].size > 0 ==> R().Of(Sell).cursor > Rank(Sell, order.price)
    {
      ghost var opp := List(R(), Sell);
      events := [];
      while pool[id].size > 0 && askMin <= order.price
        invariant Linked(id) && Taking(id, order)
        invariant List(R(), Sell.Opposite()) == old(List(R(), Sell.Opposite()))
        invariant Underway(Incoming(id, order), opp, events, EntryOf(id, pool[id]), List(R(), Sell))
        decreases MAX_PRICE - askMin, QueueLength(askQueues, askMin), pool[id].size
      {
        ghost var r := R();
        var now := SweepFront(Sell, askMin, id);
        UnderwayRound(Incoming(id, order), opp, events, r, R(), Sell, id, now);
        events := events + now;
      }
      SweepDone(R(), Sell, id);
    }

    // Ends a match: `events` are those of the sweep from the book `b`.
    method RestSwept(id: nat, order: Order, ghost b: Book, ghost events: seq<Event>) returns (last: seq<Event>)
      requires Linked(id) && poolTop == id + 1 && b.top == id && id < MAX_ORDERS && 0 < order.price && Taking(id, order)
      requires Swept(EntryOf(id, pool[id]), List(R(), order.side.Opposite()), events) ==
        Sweep(Incoming(id, order), b.Orders(order.side.Opposite()))
      requires List(R(), order.side) == b.Orders(order.side)
      requires pool[id].size > 0 ==> Rank(order.side, order.price) + R().Of(order.side.Opposite()).cursor > MAX_PRICE
      modifies `bidQueues, `askQueues, `bidMax, `askMin, pool, buys, sells
      ensures Linked(id + 1)
      ensures Outcome(Abs(), id, events + last) == Matched(b, Incoming(id, order))
    {
      ghost var swept := Swept(EntryOf(id, pool[id]), List(R(), order.side.Opposite()), events);
      last := Rest(id);
      MatchedIs(b, Incoming(id, order), swept, List(R(), order.side), last);
    }

    method MatchBuy(id: nat, order: Order) returns (events: seq<Event>)
      requires Linked(id) && poolTop == id + 1 && id < MAX_ORDERS
      requires order.side.Buy? && 0 < order.price && Taking(id, order)
      requires EntryOf(id, pool[id]) == Incoming(id, order)
      modifies `bidQueues, `askQueues, `bidMax, `askMin, pool, buys, sells
      ensures Linked(id + 1)
      ensures var m := Matched(old(Book(List(R(), Buy), List(R(), Sell), id)), Incoming(id, order));
        Abs() == m.book && events == m.events
    {
      ghost var b := Book(List(R(), Buy), List(R(), Sell), id);
      events := SweepAsks(id, order);
      var last := RestSwept(id, order, b, events);
      events := events + last;
    }

    // The loop of MatchSell.
    method SweepBids(id: nat, order: Order) returns (events: seq<Event>)
      requires Linked(id) && id < MAX_ORDERS
      requires order.side == Buy.Opposite() && 0 < order.price && Taking(id, order)
      requires EntryOf(id, pool[id]) == Incoming(id, order)
      modifies `bidQueues, `askQueues, `bidMax, `askMin, pool, buys, sells
      ensures Linked(id) && Taking(id, order)
      ensures Swept(EntryOf(id, pool[id]), List(R(), Buy), events) == Sweep(Incoming(id, order), old(List(R(), Buy)))
      ensures List(R(), Buy.Opposite()) == old(List(R(), Buy.Opposite()))
      ensures pool[id].size > 0 ==> R().Of(Buy).cursor > Rank(Buy, order.price)
    {
      ghost var opp := List(R(), Buy);
      events := [];
      while pool[id].size > 0 && bidMax >= order.price && bidMax > 0
        invariant Linked(id) && Taking(id, order)
        invariant List(R(), Buy.Opposite()) == old(List(R(), Buy.Opposite()))
        invariant Underway(Incoming(id, order), opp, events, EntryOf(id, pool[id]), List(R(), Buy))
        decreases bidMax, QueueLength(bidQueues, bidMax), pool[id].size
      {
        ghost var r := R();
        var now := SweepFront(Buy, bidMax, id);
        UnderwayRound(Incoming(id, order), opp, events, r, R(), Buy, id, now);
        events := events + now;
      }
      SweepDone(R(), Buy, id);
    }

    method MatchSell(id: nat, order: Order) returns (events: seq<Event>)
      requires Linked(id) && poolTop == id + 1 && id < MAX_ORDERS
      requires order.side.Sell? && 0 < order.price && Taking(id, order)
      requires EntryOf(id, pool[id]) == Incoming(id, order)
      modifies `bidQueues, `askQueues, `bidMax, `askMin, pool, buys, sells
      ensures Linked(id + 1)
      ensures var m := Matched(old(Book(List(R(), Buy), List(R(), Sell), id)), Incoming(id, order));
        Abs() == m.book && events == m.events
    {
      ghost var b := Book(List(R(), Buy), List(R(), Sell), id);
      events := SweepBids(id, order);
      var last := RestSwept(id, order, b, events);
      events := events + last;
    }

    // -------------------------------------------------------------- commands

    // Reads the top of book as the engine sees it.
    method ReadTop(ghost bound: nat) returns (top: Top)
      requires Linked(bound)
      ensures top == Wrapped(TopOf(Abs()))
    {
      var bid := BestBid(bound);
      var bidQty := BestBidQty(bound);
      var ask := BestAsk(bound);
      var askQty := BestAskQty(bound);
      top := Top(bid, bidQty, ask, askQty);
    }

    // Appends a best-bid-offer event when the top of book, as the engine sees it, changed.
    method AppendBBOIfChanged(events: seq<Event>, prev: Top) returns (all: seq<Event>)
      requires Linked(poolTop)
      ensures all == events + ReportIfChanged(prev, Wrapped(TopOf(Abs())))
    {
      var now := ReadTop(poolTop);
      all := events;
      if now.bid != prev.bid || now.bidQty != prev.bidQty || now.ask != prev.ask || now.askQty != prev.askQty {
        all := all + [BBOEvent(now.bid, now.bidQty, now.ask, now.askQty)];
      }
    }

    method MatchOrder(id: nat, order: Order) returns (events: seq<Event>)
      requires Linked(id) && poolTop == id + 1 && id < MAX_ORDERS
      requires 0 < order.price && Taking(id, order) && EntryOf(id, pool[id]) == Incoming(id, order)
      modifies `bidQueues, `askQueues, `bidMax, `askMin, pool, buys, sells
      ensures Linked(id + 1)
      ensures var m := Matched(old(Book(List(R(), Buy), List(R(), Sell), id)), Incoming(id, order));
        Abs() == m.book && events == m.events
    {
      if order.side.Buy? {
        events := MatchBuy(id, order);
      } else {
        events := MatchSell(id, order);
      }
    }

    method Accept(order: Order) returns (id: nat, events: seq<Event>)
      requires Linked(poolTop) && poolTop < MAX_ORDERS && 0 < order.price
      modifies this, pool, buys, sells
      ensures Linked(poolTop)
      ensures Outcome(Abs(), id, events) ==
        var m := Matched(old(Abs()), Incoming(old(poolTop), order));
        m.(events := m.events + ReportIfChanged(Wrapped(TopOf(old(Abs()))), Wrapped(TopOf(m.book))))
    {
      ghost var b := Abs();
      id := Alloc(order);
      assert Book(List(R(), Buy), List(R(), Sell), id) == b;
      var prev := ReadTop(id);
      events := MatchOrder(id, order);
      events := AppendBBOIfChanged(events, prev);
    }

    // Submits a limit order: exactly what the reference matcher does.
    method Limit(order: Order) returns (id: nat, events: seq<Event>)
      requires Valid()
      modifies this, pool, buys, sells
      ensures Valid()
      ensures Outcome(Abs(), id, events) == PriceTime.Limit(old(Abs()), order)
    {
      if order.price == 0 {
        return NONE, [Rejection(NONE, TraderStr(order.trader), Unspecified)];
      }
      if poolTop >= MAX_ORDERS {
        return NONE, [Rejection(NONE, TraderStr(order.trader), PoolExhausted)];
      }
      LimitFacts(Abs(), order);
      id, events := Accept(order);
    }

    // -------------------------------------------------------------- cancelling

    // Deactivates a slot and tightens its side's cursor.
    method Withdraw(id: nat)
      requires Linked(poolTop) && id < poolTop && pool[id].active
      modifies `bidMax, `askMin, pool
      ensures Linked(poolTop)
      ensures List(R(), Buy) == Remove(old(List(R(), Buy)), id) && List(R(), Sell) == Remove(old(List(R(), Sell)), id)
    {
      var side, price := pool[id].side, pool[id].price;
      Deactivate(id);
      Tighten(side, price);
    }

    method Deactivate(id: nat)
      requires Linked(poolTop) && id < poolTop && pool[id].active
      modifies pool
      ensures Linked(poolTop)
      ensures List(R(), Buy) == Remove(old(List(R(), Buy)), id) && List(R(), Sell) == Remove(old(List(R(), Sell)), id)
    {
      ghost var r := R();
      pool[id] := pool[id].(active := false, size := 0);
      CancelStep(r, poolTop, id, pool[id]);
      assert R() == r.(pool := r.pool[id := pool[id]]);
    }

    // Moves a side's cursor to its best price, for bids only when it stands at the given price.
    method Tighten(side: Side, price: nat)
      requires Linked(poolTop)
      modifies `bidMax, `askMin
      ensures Linked(poolTop)
      ensures List(R(), Buy) == old(List(R(), Buy)) && List(R(), Sell) == old(List(R(), Sell))
    {
      CursorBound(R(), poolTop, side);
      if side == Buy && price == bidMax {
        TightenStep(R(), poolTop, Buy);
        bidMax := BestBid(poolTop);
      } else if side == Sell {
        TightenStep(R(), poolTop, Sell);
        var ba := BestAsk(poolTop);
        askMin := if ba == 0 then MAX_PRICE else ba;
      }
    }

    // Cancels a resting order: exactly what the reference matcher does.
    method Cancel(id: nat) returns (events: seq<Event>)
      requires Valid()
      modifies this, pool, buys, sells
      ensures Valid()
      ensures Outcome(Abs(), id, events) == PriceTime.Cancel(old(Abs()), id)
    {
      if id == NONE || id >= poolTop {
        return [Rejection(id, [], NotFound)];
      }
      ActiveIsListed(R(), poolTop, id);
      var slot := pool[id];
      if !slot.active {
        var reason := NotFound;
        if slot.size == 0 && id < poolTop {
          reason := AlreadyFilled;
        }
        return [Rejection(id, [], reason)];
      }
      CancelFacts(Abs(), id);
      var prev := ReadTop(poolTop);
      Withdraw(id);
      events := [OrderEvent(id, TraderStr(slot.trader), OrderCancelled, slot.qtyFilled, slot.size, slot.fills,
                            Unspecified)];
      events := AppendBBOIfChanged(events, prev);
    }

    // -------------------------------------------------------------- export and import

    // The active orders of one level, front first.
    method Collect(level: Level, side: Side, price: nat, ghost q: seq<nat>, ghost bound: nat) returns (es: seq<Entry>)
      requires bound <= pool.Length && LevelOk(pool[..], level, q, side, price, bound)
      ensures InPool(pool[..], q) && es == Live(pool[..], q)
    {
      ghost var slots := pool[..];
      ghost var i := 0;
      CollectNone(slots, q);
      es := [];
      var cur := level.head;
      while cur != NONE
        invariant 0 <= i <= |q| && cur == NodeAt(q, i)
        invariant CollectedTo(slots, q, i, es)
        decreases |q| - i
      {
        NextNode(slots, level, q, side, price, bound, i);
        CollectNext(slots, q, i, es);
        var s := pool[cur];
        if s.active {
          es := es + [Entry(cur, s.trader, s.price, s.size, side, s.qtyFilled, s.fills)];
        } else {
          assert es + [] == es;
        }
        cur := s.next;
        i := i + 1;
      }
      CollectAll(slots, q, es);
    }

    method CollectBids(best: nat) returns (es: seq<Entry>)
      requires Linked(poolTop) && best == TopPrice(List(R(), Buy))
      ensures es == List(R(), Buy)
    {
      StartAtBest(R(), poolTop, Buy);
      es := [];
      var p := best;
      while p > 0
        invariant 0 <= p < MAX_PRICE
        invariant GatheredTo(pool[..], bidQueues, Buy, MAX_PRICE - p, es, List(R(), Buy))
      {
        assert LevelOk(pool[..], buys[..][p], bidQueues[p], Buy, p, poolTop);
        var here := Collect(buys[p], Buy, p, bidQueues[p], poolTop);
        CollectPrice(pool[..], bidQueues, Buy, MAX_PRICE - p, es, List(R(), Buy));
        es := es + here;
        p := p - 1;
      }
      GatheredAll(pool[..], bidQueues, Buy, es, List(R(), Buy));
    }

    method CollectAsks(best: nat) returns (es: seq<Entry>)
      requires Linked(poolTop) && best == TopPrice(List(R(), Sell)) && best > 0
      ensures es == List(R(), Sell)
    {
      StartAtBest(R(), poolTop, Sell);
      es := [];
      var p := best;
      while p < MAX_PRICE
        invariant 0 < p <= MAX_PRICE
        invariant GatheredTo(pool[..], askQueues, Sell, p, es, List(R(), Sell))
      {
        assert LevelOk(pool[..], sells[..][p], askQueues[p], Sell, p, poolTop);
        var here := Collect(sells[p], Sell, p, askQueues[p], poolTop);
        CollectPrice(pool[..], askQueues, Sell, p, es, List(R(), Sell));
        es := es + here;
        p := p + 1;
      }
      GatheredAll(pool[..], askQueues, Sell, es, List(R(), Sell));
    }

    method Snapshot() returns (state: BookState)
      requires Linked(poolTop)
      ensures state == Export(Abs())
    {
      var bestBid := BestBid(poolTop);
      var bestAsk := BestAsk(poolTop);
      var bids := CollectBids(bestBid);
      if bestAsk == 0 {
        StartAtBest(R(), poolTop, Sell);
        assert List(R(), Sell) == [] && bids + [] == bids;
        assert Abs() == Book(bids, [], poolTop);
        return BookState(bids, bestBid, bestAsk, poolTop);
      }
      var asks := CollectAsks(bestAsk);
      assert Abs() == Book(bids, asks, poolTop);
      return BookState(bids + asks, bestBid, bestAsk, poolTop);
    }

    // Writes one entry into its slot and links it.
    method Import(e: Entry)
      requires buys != sells && buys.Length == sells.Length == |bidQueues| == |askQueues| == MAX_PRICE
      requires e.id < pool.Length && e.price < MAX_PRICE
      requires R().Of(e.side).levels[e.price].tail < pool.Length
      modifies `bidQueues, `askQueues, pool, buys, sells
      ensures Wrote(old(R()), R(), e)
    {
      pool[e.id] := Slot(e.trader, e.size, NONE, e.price, e.side, true, e.qtyFilled, e.fills);
      ghost var pool1 := pool[..];
      if e.side.Buy? {
        Enqueue(buys, e.price, e.id);
        bidQueues := bidQueues[e.price := bidQueues[e.price] + [e.id]];
      } else {
        Enqueue(sells, e.price, e.id);
        askQueues := askQueues[e.price := askQueues[e.price] + [e.id]];
      }
      assert pool1[e.id := SlotOf(e)] == pool1;
    }

    // Imports the entries of any state into blank storage.  `r` is the storage with each cursor at
    // the best price imported.
    method ImportAll(es: seq<Entry>) returns (ghost r: Rep)
      requires buys != sells && Blank(R())
      requires forall i :: 0 <= i < |es| && 0 < es[i].id < MAX_ORDERS ==> es[i].price < MAX_PRICE
      modifies `bidQueues, `askQueues, pool, buys, sells
      ensures Shaped(r) && SameStorage(R(), r) && ImportedSoFar(r, es, |es|)
    {
      r := R();
      NoneImported(r, es);
      var i := 0;
      while i < |es|
        invariant 0 <= i <= |es|
        invariant Shaped(r) && SameStorage(R(), r) && ImportedSoFar(r, es, i)
      {
        if es[i].id == NONE || es[i].id >= MAX_ORDERS {
          SkippedSoFar(r, es, i);
          i := i + 1;
          continue;
        }
        NextSoFar(r, es, i);
        RestedShaped(r, es[i]);
        r := ImportOne(es[i], r);
        i := i + 1;
      }
    }

    method ImportOne(e: Entry, ghost r: Rep) returns (ghost r': Rep)
      requires buys != sells && SameStorage(R(), r) && Shaped(r)
      requires e.id < MAX_ORDERS && e.price < MAX_PRICE
      modifies `bidQueues, `askQueues, pool, buys, sells
      ensures r' == Rested(r, e.id, SlotOf(e)) && SameStorage(R(), r')
    {
      ghost var before := R();
      Import(e);
      WroteSame(before, R(), r, e);
      r' := Rested(r, e.id, SlotOf(e));
    }

    // Rebuilds the storage from any state.
    method Rebuild(state: BookState) returns (ghost r: Rep)
      requires pool.Length == MAX_ORDERS && buys.Length == sells.Length == MAX_PRICE && buys != sells
      requires InRange(state)
      modifies this, pool, buys, sells
      ensures Shaped(R()) && SameStorage(r, R()) && ImportedSoFar(r, state.orders, |state.orders|)
      ensures bidMax == state.bestBid && askMin == if state.bestAsk == 0 then MAX_PRICE else state.bestAsk
      ensures poolTop == if state.poolTop < 1 then 1 else state.poolTop
    {
      Reset();
      r := ImportAll(state.orders);
      bidMax := state.bestBid;
      askMin := if state.bestAsk == 0 then MAX_PRICE else state.bestAsk;
      poolTop := if state.poolTop < 1 then 1 else state.poolTop;
    }

    // Imports any state: the storage is rebuilt, and if the state stands for a book, as every
    // exported one does, the engine is valid and holds that book.
    method Restore(state: BookState)
      requires pool.Length == MAX_ORDERS && buys.Length == sells.Length == MAX_PRICE && buys != sells
      requires InRange(state)
      modifies this, pool, buys, sells
      ensures Shaped(R()) && poolTop == (if state.poolTop < 1 then 1 else state.poolTop)
      ensures forall b :: Encodes(state, b) ==> Valid() && Abs() == b
    {
      ghost var r := Rebuild(state);
      RestoredAll(r, R(), state, poolTop);
      HoldsBooks();
    }

    lemma HoldsBooks()
      requires buys != sells
      ensures forall b :: Represents(R(), poolTop, b) ==> Valid() && Abs() == b
    {
    }
  }
}
