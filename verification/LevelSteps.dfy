/** What each storage update of the engine does to the list a side denotes. */
module LevelSteps {
  import opened EngineTypes
  import opened PriceTime
  import opened Levels
  import opened Sequences

  // ---------------------------------------------------------------- framing

  // Links are kept by any update that moves no slot and activates none.
  lemma HalfFrame(pool: seq<Slot>, pool': seq<Slot>, h: Half, side: Side, bound: nat)
    requires bound <= |pool| == |pool'| && HalfOk(pool, h, side, bound)
    requires forall id :: 0 <= id < bound ==> SameLink(pool[id], pool'[id]) && (pool'[id].active ==> pool[id].active)
    ensures HalfOk(pool', h, side, bound)
    ensures Queues(pool, h.queues) && Queues(pool', h.queues)
  {
    HalfQueues(pool, h, side, bound);
    forall p | 0 <= p < MAX_PRICE ensures LevelOk(pool', h.levels[p], h.queues[p], side, p, bound) {
      LevelFrame(pool, pool', h.levels[p], h.queues[p], side, p, bound, bound);
    }
    forall id | 0 <= id < bound ensures Placed(pool', h, side, id) {
      assert Placed(pool, h, side, id);
    }
    HalfQueues(pool', h, side, bound);
  }

  predicate SameEntry(s: Slot, s': Slot) { s.active == s'.active && EntryOf(0, s) == EntryOf(0, s') }

  // A side denotes the same list when none of its own entries changed.
  lemma SameLists(pool: seq<Slot>, pool': seq<Slot>, h: Half, side: Side, bound: nat, rank: int)
    requires bound <= |pool| == |pool'| && HalfOk(pool, h, side, bound) && Queues(pool, h.queues)
      && Queues(pool', h.queues)
    requires 1 <= rank <= MAX_PRICE
    requires forall id :: 0 <= id < bound && pool[id].side == side && rank <= Rank(side, pool[id].price) ==>
      SameEntry(pool[id], pool'[id])
    ensures Flat(pool', h.queues, side, rank) == Flat(pool, h.queues, side, rank)
  {
    forall r | rank <= r < MAX_PRICE
      ensures Live(pool, h.queues[PriceAt(side, r)]) == Live(pool', h.queues[PriceAt(side, r)])
    {
      var p := PriceAt(side, r);
      assert LevelOk(pool, h.levels[p], h.queues[p], side, p, bound);
      LiveFrame(pool, pool', h.queues[p]);
    }
    FlatFrame(pool, h.queues, pool', h.queues, side, rank);
  }

  // Slots at and above the bound (the order being matched) are invisible to the book, and so
  // are the slots of the other side.
  lemma FrameSide(pool: seq<Slot>, pool': seq<Slot>, h: Half, side: Side, bound: nat)
    requires bound <= |pool| == |pool'| && HalfOk(pool, h, side, bound)
    requires forall id :: 0 <= id < bound ==> SameLink(pool[id], pool'[id]) && (pool'[id].active ==> pool[id].active)
    requires forall id :: 0 <= id < bound && pool[id].side == side ==> pool[id] == pool'[id]
    ensures HalfOk(pool', h, side, bound)
    ensures Queues(pool, h.queues) && Queues(pool', h.queues)
    ensures Denoted(pool', h, side) == Denoted(pool, h, side)
  {
    HalfFrame(pool, pool', h, side, bound);
    SameLists(pool, pool', h, side, bound, 1);
  }

  // ---------------------------------------------------------------- queue fronts and cursor

  // `h` with the first `k` nodes at a price unlinked.
  function Unlinked(h: Half, price: int, k: int): Half
    requires |h.levels| == |h.queues| == MAX_PRICE && 0 <= price < MAX_PRICE
    requires 0 <= k <= |h.queues[price]|
  {
    var q := h.queues[price];
    var level := if k < |q| then Level(q[k], h.levels[price].tail) else EMPTY_LEVEL;
    h.(levels := h.levels[price := level], queues := h.queues[price := q[k..]])
  }

  lemma UnlinkLevel(pool: seq<Slot>, h: Half, side: Side, bound: nat, price: int, k: int)
    requires bound <= |pool| && |h.levels| == |h.queues| == MAX_PRICE
    requires 0 <= price < MAX_PRICE && 0 <= k <= |h.queues[price]|
    requires LevelOk(pool, h.levels[price], h.queues[price], side, price, bound)
    ensures LevelOk(pool, Unlinked(h, price, k).levels[price], h.queues[price][k..], side, price, bound)
  {
    var q := h.queues[price];
    var q' := q[k..];
    forall i | 0 <= i < |q'|
      ensures 0 < q'[i] < bound && pool[q'[i]].side == side && pool[q'[i]].price == price
      ensures Chained(pool, q', i)
    {
      NextNode(pool, h.levels[price], q, side, price, bound, i + k);
    }
    forall i, j | 0 <= i < j < |q'| ensures q'[i] < q'[j] {
      assert q'[i] == q[i + k] && q'[j] == q[j + k];
    }
  }

  // The first `k` nodes of a queue are cancelled orders.
  ghost predicate FrontInactive(pool: seq<Slot>, q: seq<nat>, k: int) {
    0 <= k <= |q| && forall i :: 0 <= i < k ==> q[i] < |pool| && !pool[q[i]].active
  }

  lemma UnlinkOk(pool: seq<Slot>, h: Half, side: Side, bound: nat, price: int, k: int)
    requires bound <= |pool| && HalfOk(pool, h, side, bound)
    requires 0 <= price < MAX_PRICE && FrontInactive(pool, h.queues[price], k)
    ensures HalfOk(pool, Unlinked(h, price, k), side, bound)
  {
    var h' := Unlinked(h, price, k);
    var q := h.queues[price];
    forall p | 0 <= p < MAX_PRICE ensures LevelOk(pool, h'.levels[p], h'.queues[p], side, p, bound) {
      assert LevelOk(pool, h.levels[p], h.queues[p], side, p, bound);
      if p == price {
        UnlinkLevel(pool, h, side, bound, price, k);
      }
    }
    forall id | 0 <= id < bound ensures Placed(pool, h', side, id) {
      assert Placed(pool, h, side, id);
      if pool[id].active && pool[id].side == side && pool[id].price == price {
        var i :| 0 <= i < |q| && q[i] == id;
        assert q[k..][i - k] == id;
      }
    }
  }

  // Unlinking cancelled orders does not change the list.
  lemma UnlinkInactive(pool: seq<Slot>, h: Half, side: Side, bound: nat, price: int, k: int)
    requires bound <= |pool| && HalfOk(pool, h, side, bound)
    requires 0 <= price < MAX_PRICE && FrontInactive(pool, h.queues[price], k)
    ensures HalfOk(pool, Unlinked(h, price, k), side, bound)
    ensures Queues(pool, h.queues) && Queues(pool, Unlinked(h, price, k).queues)
    ensures Denoted(pool, Unlinked(h, price, k), side) == Denoted(pool, h, side)
  {
    var h' := Unlinked(h, price, k);
    var q := h.queues[price];
    UnlinkOk(pool, h, side, bound, price, k);
    HalfQueues(pool, h, side, bound);
    HalfQueues(pool, h', side, bound);
    assert q == q[..k] + q[k..];
    LiveConcat(pool, q[..k], q[k..]);
    LiveInactive(pool, q[..k]);
    FlatFrame(pool, h.queues, pool, h'.queues, side, 1);
  }

  // The cursor may pass a price whose queue is empty.
  lemma AdvanceCursor(pool: seq<Slot>, h: Half, side: Side, bound: nat)
    requires bound <= |pool| && HalfOk(pool, h, side, bound)
    requires h.cursor < MAX_PRICE && h.queues[PriceAt(side, h.cursor)] == []
    ensures HalfOk(pool, h.(cursor := h.cursor + 1), side, bound)
  {
    var h' := h.(cursor := h.cursor + 1);
    forall id | 0 <= id < bound ensures Placed(pool, h', side, id) {
      assert Placed(pool, h, side, id);
    }
  }

  // Moving the cursor towards better prices is always sound.
  lemma RetreatCursor(pool: seq<Slot>, h: Half, side: Side, bound: nat, cursor: int)
    requires bound <= |pool| && HalfOk(pool, h, side, bound)
    requires 1 <= cursor <= h.cursor
    ensures HalfOk(pool, h.(cursor := cursor), side, bound)
  {
    var h' := h.(cursor := cursor);
    forall id | 0 <= id < bound ensures Placed(pool, h', side, id) {
      assert Placed(pool, h, side, id);
    }
  }

  lemma {:induction false} FlatFromHead(pool: seq<Slot>, h: Half, side: Side, bound: nat, rank: int)
    requires bound <= |pool| && HalfOk(pool, h, side, bound) && Queues(pool, h.queues)
    requires 1 <= rank <= MAX_PRICE
    ensures var es := Flat(pool, h.queues, side, rank);
      es != [] ==> rank <= Rank(side, es[0].price) < MAX_PRICE
                   && es == Flat(pool, h.queues, side, Rank(side, es[0].price))
    decreases MAX_PRICE - rank
  {
    if rank < MAX_PRICE {
      var here := Live(pool, h.queues[PriceAt(side, rank)]);
      if here == [] {
        FlatFromHead(pool, h, side, bound, rank + 1);
      } else {
        LevelMembers(pool, h, side, bound, PriceAt(side, rank));
        assert Flat(pool, h.queues, side, rank)[0] == here[0];
      }
    }
  }

  // The cursor may be set to the true best price, or to the end when the side is empty.
  lemma TightenCursor(pool: seq<Slot>, h: Half, side: Side, bound: nat, cursor: int)
    requires bound <= |pool| && HalfOk(pool, h, side, bound) && Queues(pool, h.queues)
    requires forall id :: 0 <= id < bound && pool[id].active ==> 0 < pool[id].price
    requires var es := Denoted(pool, h, side);
      cursor == if es == [] then MAX_PRICE else Rank(side, es[0].price)
    ensures 1 <= cursor <= MAX_PRICE
    ensures HalfOk(pool, h.(cursor := cursor), side, bound)
  {
    FlatFromHead(pool, h, side, bound, 1);
    FlatMembers(pool, h, side, bound, cursor);
    var h' := h.(cursor := cursor);
    forall id | 0 <= id < bound ensures Placed(pool, h', side, id) {
      assert Placed(pool, h, side, id);
      if pool[id].active && pool[id].side == side {
        FlatContains(pool, h.queues, side, 1, id);
      }
    }
  }

  // ---------------------------------------------------------------- trading with the front order

  // The list from a rank on, split behind its front node.
  ghost function FrontList(pool: seq<Slot>, qs: seq<seq<nat>>, side: Side, rank: int): seq<Entry>
    requires Queues(pool, qs) && 1 <= rank < MAX_PRICE && qs[PriceAt(side, rank)] != []
  {
    var q := qs[PriceAt(side, rank)];
    [EntryOf(q[0], pool[q[0]])] + (Live(pool, q[1..]) + Flat(pool, qs, side, rank + 1))
  }

  lemma FlatHere(pool: seq<Slot>, qs: seq<seq<nat>>, side: Side, rank: int)
    requires Queues(pool, qs) && 1 <= rank < MAX_PRICE
    requires qs[PriceAt(side, rank)] != [] && pool[qs[PriceAt(side, rank)][0]].active
    ensures Flat(pool, qs, side, rank) == FrontList(pool, qs, side, rank)
  {
    var q := qs[PriceAt(side, rank)];
    var first, more, later := [EntryOf(q[0], pool[q[0]])], Live(pool, q[1..]), Flat(pool, qs, side, rank + 1);
    assert (first + more) + later == first + (more + later);
  }

  // The front order at the cursor is the first of the denoted list.
  lemma FrontSplit(pool: seq<Slot>, h: Half, side: Side, bound: nat)
    requires FrontReady(pool, h, side, bound) && Queues(pool, h.queues)
    ensures Denoted(pool, h, side) == FrontList(pool, h.queues, side, h.cursor)
  {
    CursorSkips(pool, h, side, bound);
    FlatHere(pool, h.queues, side, h.cursor);
  }

  // The order at the front of the cursor's price is active.
  ghost predicate FrontReady(pool: seq<Slot>, h: Half, side: Side, bound: nat)
  {
    && bound <= |pool| && HalfOk(pool, h, side, bound)
    && h.cursor < MAX_PRICE
    && var q := h.queues[PriceAt(side, h.cursor)]; q != [] && q[0] < bound && pool[q[0]].active
  }

  // ... and `s` may replace it in place.
  ghost predicate FrontSlot(pool: seq<Slot>, h: Half, side: Side, bound: nat, s: Slot)
  {
    FrontReady(pool, h, side, bound) && SameLink(pool[Front(h, side)], s)
  }

  function Front(h: Half, side: Side): nat
    requires |h.queues| == MAX_PRICE && 1 <= h.cursor < MAX_PRICE && h.queues[PriceAt(side, h.cursor)] != []
  {
    h.queues[PriceAt(side, h.cursor)][0]
  }

  lemma FrontFrame(pool: seq<Slot>, h: Half, side: Side, bound: nat, s: Slot)
    requires FrontSlot(pool, h, side, bound, s)
    ensures HalfOk(pool[Front(h, side) := s], h, side, bound)
    ensures Queues(pool, h.queues) && Queues(pool[Front(h, side) := s], h.queues)
  {
    HalfFrame(pool, pool[Front(h, side) := s], h, side, bound);
  }

  // Nothing behind the front order depends on it.
  lemma BehindFront(pool: seq<Slot>, h: Half, side: Side, bound: nat, s: Slot)
    requires FrontSlot(pool, h, side, bound, s)
    requires Queues(pool, h.queues) && Queues(pool[Front(h, side) := s], h.queues)
    ensures var q := h.queues[PriceAt(side, h.cursor)];
      InPool(pool, q[1..]) && Live(pool[q[0] := s], q[1..]) == Live(pool, q[1..])
    ensures Flat(pool[Front(h, side) := s], h.queues, side, h.cursor + 1) == Flat(pool, h.queues, side, h.cursor + 1)
  {
    var price := PriceAt(side, h.cursor);
    var q := h.queues[price];
    var pool' := pool[q[0] := s];
    assert LevelOk(pool, h.levels[price], q, side, price, bound);
    assert Live(pool', q[1..]) == Live(pool, q[1..]) by {
      LiveFrame(pool, pool', q[1..]);
    }
    SameLists(pool, pool', h, side, bound, h.cursor + 1);
  }

  // Rewriting the front order in place rewrites the first element of the list.
  lemma ReplaceFront(pool: seq<Slot>, h: Half, side: Side, bound: nat, s: Slot)
    requires FrontSlot(pool, h, side, bound, s) && s.active
    ensures var id := Front(h, side);
      && HalfOk(pool[id := s], h, side, bound)
      && Queues(pool, h.queues) && Queues(pool[id := s], h.queues)
      && Denoted(pool, h, side) != []
      && Denoted(pool[id := s], h, side) == [EntryOf(id, s)] + Denoted(pool, h, side)[1..]
  {
    FrontFrame(pool, h, side, bound, s);
    FrontSplit(pool, h, side, bound);
    FrontSplit(pool[Front(h, side) := s], h, side, bound);
    BehindFront(pool, h, side, bound, s);
  }

  lemma DroppedList(pool: seq<Slot>, h: Half, side: Side, bound: nat, s: Slot)
    requires FrontSlot(pool, h, side, bound, s) && !s.active
    ensures var id := Front(h, side);
      && HalfOk(pool[id := s], h, side, bound)
      && Queues(pool, h.queues) && Queues(pool[id := s], h.queues)
      && Denoted(pool, h, side) != []
      && Denoted(pool[id := s], h, side) == Denoted(pool, h, side)[1..]
  {
    var q := h.queues[PriceAt(side, h.cursor)];
    FrontFrame(pool, h, side, bound, s);
    FrontSplit(pool, h, side, bound);
    CursorSkips(pool[q[0] := s], h, side, bound);
    BehindFront(pool, h, side, bound, s);
    assert Live(pool[q[0] := s], q) == Live(pool[q[0] := s], q[1..]);
  }

  // Deactivating and unlinking the front order drops the first element of the list.
  lemma DropFront(pool: seq<Slot>, h: Half, side: Side, bound: nat, s: Slot)
    requires FrontSlot(pool, h, side, bound, s) && !s.active
    ensures var h' := Unlinked(h, PriceAt(side, h.cursor), 1);
      && HalfOk(pool[Front(h, side) := s], h', side, bound)
      && Queues(pool, h.queues) && Queues(pool[Front(h, side) := s], h'.queues)
      && Denoted(pool, h, side) != []
      && Denoted(pool[Front(h, side) := s], h', side) == Denoted(pool, h, side)[1..]
  {
    DroppedList(pool, h, side, bound, s);
    assert FrontInactive(pool[Front(h, side) := s], h.queues[PriceAt(side, h.cursor)], 1);
    UnlinkInactive(pool[Front(h, side) := s], h, side, bound, PriceAt(side, h.cursor), 1);
  }

  // ---------------------------------------------------------------- one trade

  function SlotTraded(s: Slot, otherId: nat, other: Slot, price: nat, qty: nat): (r: Slot)
    requires qty <= s.size && s.size + s.qtyFilled < WORD
    ensures forall id :: EntryOf(id, r) == Traded(EntryOf(id, s), EntryOf(otherId, other), price, qty)
    ensures SameLink(s, r) && r.active == s.active
  {
    s.(size := s.size - qty, qtyFilled := s.qtyFilled + qty,
       fills := s.fills + [Match(otherId, TraderStr(other.trader), price, qty)])
  }

  // ---------------------------------------------------------------- cancelling

  lemma Deactivate(pool: seq<Slot>, h: Half, side: Side, bound: nat, id: nat, s: Slot)
    requires bound <= |pool| && HalfOk(pool, h, side, bound)
    requires id < bound && !s.active && SameLink(pool[id], s)
    ensures HalfOk(pool[id := s], h, side, bound)
    ensures Queues(pool, h.queues) && Queues(pool[id := s], h.queues)
    ensures Denoted(pool[id := s], h, side) == Remove(Denoted(pool, h, side), id)
  {
    HalfFrame(pool, pool[id := s], h, side, bound);
    FlatRemove(pool, h.queues, side, 1, id, s);
  }

  // ---------------------------------------------------------------- resting a new order

  // `pool` with slot `id` set to `s` and the old tail of the level linked to it.
  function LinkedPool(pool: seq<Slot>, level: Level, id: nat, s: Slot): seq<Slot>
    requires id < |pool| && level.tail < |pool|
  {
    var pool1 := pool[id := s];
    if level.tail != NONE then pool1[level.tail := pool1[level.tail].(next := id)] else pool1
  }

  function LinkedHalf(h: Half, price: int, id: nat): Half
    requires |h.levels| == |h.queues| == MAX_PRICE && 0 <= price < MAX_PRICE
  {
    var level := h.levels[price];
    var level' := Level(if level.tail != NONE then level.head else id, id);
    h.(levels := h.levels[price := level'], queues := h.queues[price := h.queues[price] + [id]])
  }

  predicate Fresh(h: Half, price: int, id: nat)
    requires |h.queues| == MAX_PRICE && 0 <= price < MAX_PRICE
  {
    && (forall p :: 0 <= p < MAX_PRICE ==> id !in h.queues[p])
    && (forall i :: 0 <= i < |h.queues[price]| ==> h.queues[price][i] < id)
  }

  ghost predicate CanLink(pool: seq<Slot>, h: Half, bound: nat, id: nat, s: Slot)
  {
    && bound <= |pool| && 0 < id <= bound && id < |pool|
    && |h.levels| == |h.queues| == MAX_PRICE
    && s.active && 0 < s.price < MAX_PRICE && s.next == NONE
    && (id < bound ==> !pool[id].active)
    && h.cursor <= Rank(s.side, s.price)
    && Fresh(h, s.price, id)
  }

  function Grown(bound: nat, id: nat): nat { if id < bound then bound else id + 1 }

  lemma TailInPool(pool: seq<Slot>, h: Half, side: Side, bound: nat, price: int)
    requires bound <= |pool| && HalfOk(pool, h, side, bound) && 0 <= price < MAX_PRICE && 0 < |pool|
    ensures h.levels[price].tail < |pool|
    ensures h.levels[price].tail != NONE ==>
      h.queues[price] != [] && h.levels[price].tail == h.queues[price][|h.queues[price]| - 1] < bound
  {
    assert LevelOk(pool, h.levels[price], h.queues[price], side, price, bound);
  }

  lemma LinkNodes(pool: seq<Slot>, level: Level, q: seq<nat>, bound: nat, id: nat, s: Slot, i: int)
    requires bound <= |pool| && 0 < id <= bound && id < |pool| && s.next == NONE
    requires LevelOk(pool, level, q, s.side, s.price, bound)
    requires forall j :: 0 <= j < |q| ==> q[j] < id
    requires 0 <= i <= |q|
    ensures level.tail < |pool|
    ensures var q' := q + [id];
      var pool' := LinkedPool(pool, level, id, s);
      && 0 < q'[i] < Grown(bound, id)
      && pool'[q'[i]].side == s.side && pool'[q'[i]].price == s.price
      && Chained(pool', q', i)
  {
    if i < |q| {
      NextNode(pool, level, q, s.side, s.price, bound, i);
    }
  }

  lemma LinkLevel(pool: seq<Slot>, h: Half, side: Side, bound: nat, id: nat, s: Slot)
    requires CanLink(pool, h, bound, id, s) && s.side == side
    requires LevelOk(pool, h.levels[s.price], h.queues[s.price], side, s.price, bound)
    ensures h.levels[s.price].tail < |pool|
    ensures LevelOk(LinkedPool(pool, h.levels[s.price], id, s), LinkedHalf(h, s.price, id).levels[s.price],
                    LinkedHalf(h, s.price, id).queues[s.price], side, s.price, Grown(bound, id))
  {
    var level, q := h.levels[s.price], h.queues[s.price];
    var q' := q + [id];
    LinkNodes(pool, level, q, bound, id, s, |q|);
    var pool' := LinkedPool(pool, level, id, s);
    forall i | 0 <= i < |q'|
      ensures 0 < q'[i] < Grown(bound, id) && pool'[q'[i]].side == side && pool'[q'[i]].price == s.price
      ensures Chained(pool', q', i)
    {
      LinkNodes(pool, level, q, bound, id, s, i);
    }
  }

  lemma LinkOk(pool: seq<Slot>, h: Half, side: Side, bound: nat, id: nat, s: Slot)
    requires CanLink(pool, h, bound, id, s) && s.side == side
    requires HalfOk(pool, h, side, bound)
    ensures h.levels[s.price].tail < |pool|
    ensures HalfOk(LinkedPool(pool, h.levels[s.price], id, s), LinkedHalf(h, s.price, id), side, Grown(bound, id))
  {
    TailInPool(pool, h, side, bound, s.price);
    var pool' := LinkedPool(pool, h.levels[s.price], id, s);
    var h' := LinkedHalf(h, s.price, id);
    var bound' := Grown(bound, id);
    forall p | 0 <= p < MAX_PRICE ensures LevelOk(pool', h'.levels[p], h'.queues[p], side, p, bound') {
      assert LevelOk(pool, h.levels[p], h.queues[p], side, p, bound);
      if p == s.price {
        LinkLevel(pool, h, side, bound, id, s);
      } else {
        OtherLevel(pool, h, side, bound, h, side, id, s, p);
      }
    }
    forall i | 0 <= i < bound' ensures Placed(pool', h', side, i) {
      if i < bound {
        assert Placed(pool, h, side, i);
      }
      if i == id {
        assert h'.queues[s.price][|h.queues[s.price]|] == id;
      }
    }
  }

  // Linking one order touches no other level of either side.
  lemma OtherLevel(pool: seq<Slot>, h: Half, side: Side, bound: nat, h1: Half, side1: Side, id: nat, s: Slot, p: int)
    requires CanLink(pool, h1, bound, id, s) && s.side == side1
    requires HalfOk(pool, h1, side1, bound) && HalfOk(pool, h, side, bound)
    requires 0 <= p < MAX_PRICE && (side != side1 || p != s.price)
    requires id !in h.queues[p]
    ensures h1.levels[s.price].tail < |pool|
    ensures LevelOk(LinkedPool(pool, h1.levels[s.price], id, s), h.levels[p], h.queues[p], side, p, Grown(bound, id))
    ensures InPool(pool, h.queues[p])
    ensures Live(LinkedPool(pool, h1.levels[s.price], id, s), h.queues[p]) == Live(pool, h.queues[p])
  {
    TailInPool(pool, h1, side1, bound, s.price);
    assert LevelOk(pool, h.levels[p], h.queues[p], side, p, bound);
    var pool' := LinkedPool(pool, h1.levels[s.price], id, s);
    var q := h.queues[p];
    forall i | 0 <= i < |q| ensures pool'[q[i]] == pool[q[i]] {
      if h1.levels[s.price].tail != NONE {
        assert LevelOk(pool, h1.levels[s.price], h1.queues[s.price], side1, s.price, bound);
      }
    }
    LevelFrame(pool, pool', h.levels[p], h.queues[p], side, p, bound, Grown(bound, id));
    LiveFrame(pool, pool', h.queues[p]);
  }

  // The other side does not see the link.
  lemma LinkOther(pool: seq<Slot>, h: Half, side: Side, bound: nat, h1: Half, id: nat, s: Slot)
    requires CanLink(pool, h1, bound, id, s) && s.side != side
    requires HalfOk(pool, h1, s.side, bound) && HalfOk(pool, h, side, bound)
    requires forall p :: 0 <= p < MAX_PRICE ==> id !in h.queues[p]
    ensures h1.levels[s.price].tail < |pool|
    ensures var pool' := LinkedPool(pool, h1.levels[s.price], id, s);
      && HalfOk(pool', h, side, Grown(bound, id))
      && Queues(pool, h.queues) && Queues(pool', h.queues)
      && Denoted(pool', h, side) == Denoted(pool, h, side)
  {
    TailInPool(pool, h1, s.side, bound, s.price);
    var pool' := LinkedPool(pool, h1.levels[s.price], id, s);
    var bound' := Grown(bound, id);
    forall p | 0 <= p < MAX_PRICE
      ensures LevelOk(pool', h.levels[p], h.queues[p], side, p, bound')
      ensures InPool(pool, h.queues[p]) && Live(pool, h.queues[p]) == Live(pool', h.queues[p])
    {
      OtherLevel(pool, h, side, bound, h1, s.side, id, s, p);
    }
    assert LevelOk(pool, h1.levels[s.price], h1.queues[s.price], s.side, s.price, bound);
    forall i | 0 <= i < bound' ensures Placed(pool', h, side, i) {
      if i < bound {
        assert Placed(pool, h, side, i);
      }
    }
    HalfQueues(pool, h, side, bound);
    HalfQueues(pool', h, side, bound');
    FlatFrame(pool, h.queues, pool', h.queues, side, 1);
  }

  // Linking at the tail of a level is insertion in price-time order.
  lemma LinkInserts(pool: seq<Slot>, h: Half, side: Side, bound: nat, id: nat, s: Slot)
    requires CanLink(pool, h, bound, id, s) && s.side == side
    requires HalfOk(pool, h, side, bound)
    ensures h.levels[s.price].tail < |pool|
    ensures var pool' := LinkedPool(pool, h.levels[s.price], id, s);
      var h' := LinkedHalf(h, s.price, id);
      && Queues(pool, h.queues) && Queues(pool', h'.queues)
      && Denoted(pool', h', side) == Insert(Denoted(pool, h, side), EntryOf(id, s))
  {
    LinkOk(pool, h, side, bound, id, s);
    var pool' := LinkedPool(pool, h.levels[s.price], id, s);
    var h' := LinkedHalf(h, s.price, id);
    HalfQueues(pool, h, side, bound);
    HalfQueues(pool', h', side, Grown(bound, id));
    forall p | 0 <= p < MAX_PRICE ensures Live(pool', h.queues[p]) == Live(pool, h.queues[p]) {
      assert LevelOk(pool, h.levels[p], h.queues[p], side, p, bound);
      LiveFrame(pool, pool', h.queues[p]);
    }
    LiveConcat(pool', h.queues[s.price], [id]);
    InsertFlat(pool, h, pool', h', side, bound, EntryOf(id, s));
  }

  lemma InsertsFirst(pool: seq<Slot>, h: Half, side: Side, bound: nat, e: Entry)
    requires bound <= |pool| && HalfOk(pool, h, side, bound) && Queues(pool, h.queues)
    requires e.side == side && 0 < e.price < MAX_PRICE
    ensures var later := Flat(pool, h.queues, side, Rank(side, e.price) + 1);
      Insert(later, e) == [e] + later
  {
    FlatMembers(pool, h, side, bound, Rank(side, e.price) + 1);
  }

  // The queues of `h'` differ from those of `h` by one entry appended at its own price.
  ghost predicate Appended(pool: seq<Slot>, h: Half, pool': seq<Slot>, h': Half, side: Side, bound: nat, e: Entry) {
    && bound <= |pool| && HalfOk(pool, h, side, bound) && Queues(pool, h.queues) && Queues(pool', h'.queues)
    && e.side == side && 0 < e.price < MAX_PRICE
    && (forall p :: 0 <= p < MAX_PRICE && p != e.price ==> Live(pool', h'.queues[p]) == Live(pool, h.queues[p]))
    && Live(pool', h'.queues[e.price]) == Live(pool, h.queues[e.price]) + [e]
  }

  // The active orders of the ranks from `lo` up to `hi`.
  ghost function Span(pool: seq<Slot>, qs: seq<seq<nat>>, side: Side, lo: int, hi: int): seq<Entry>
    requires Queues(pool, qs) && 1 <= lo <= hi <= MAX_PRICE
    decreases hi - lo, |qs|
  {
    if lo == hi then [] else Live(pool, qs[PriceAt(side, lo)]) + Span(pool, qs, side, lo + 1, hi)
  }

  lemma {:induction false} SpanSplit(pool: seq<Slot>, qs: seq<seq<nat>>, side: Side, lo: int, hi: int)
    requires Queues(pool, qs) && 1 <= lo <= hi <= MAX_PRICE
    ensures Flat(pool, qs, side, lo) == Span(pool, qs, side, lo, hi) + Flat(pool, qs, side, hi)
    decreases hi - lo
  {
    var rest := Flat(pool, qs, side, hi);
    if lo < hi {
      var here, front := Live(pool, qs[PriceAt(side, lo)]), Span(pool, qs, side, lo + 1, hi);
      SpanSplit(pool, qs, side, lo + 1, hi);
      Assoc(here, front, rest);
    }
  }

  lemma {:induction false} SpanFrame(pool: seq<Slot>, qs: seq<seq<nat>>, pool': seq<Slot>, qs': seq<seq<nat>>,
                                     side: Side, lo: int, hi: int)
    requires Queues(pool, qs) && Queues(pool', qs') && 1 <= lo <= hi <= MAX_PRICE
    requires forall r :: lo <= r < hi ==> Live(pool, qs[PriceAt(side, r)]) == Live(pool', qs'[PriceAt(side, r)])
    ensures Span(pool, qs, side, lo, hi) == Span(pool', qs', side, lo, hi)
    decreases hi - lo
  {
    if lo < hi {
      SpanFrame(pool, qs, pool', qs', side, lo + 1, hi);
    }
  }

  lemma {:induction false} SpanRanks(pool: seq<Slot>, h: Half, side: Side, bound: nat, lo: int, hi: int)
    requires bound <= |pool| && HalfOk(pool, h, side, bound) && Queues(pool, h.queues)
    requires 1 <= lo <= hi <= MAX_PRICE
    ensures forall i :: 0 <= i < |Span(pool, h.queues, side, lo, hi)| ==>
      Rank(side, Span(pool, h.queues, side, lo, hi)[i].price) < hi
    decreases hi - lo
  {
    if lo < hi {
      LevelMembers(pool, h, side, bound, PriceAt(side, lo));
      SpanRanks(pool, h, side, bound, lo + 1, hi);
    }
  }

  lemma SameBehind(pool: seq<Slot>, h: Half, pool': seq<Slot>, h': Half, side: Side, bound: nat, e: Entry)
    requires Appended(pool, h, pool', h', side, bound, e)
    ensures Flat(pool', h'.queues, side, Rank(side, e.price) + 1) == Flat(pool, h.queues, side, Rank(side, e.price) + 1)
  {
    FlatFrame(pool, h.queues, pool', h'.queues, side, Rank(side, e.price) + 1);
  }

  lemma Regroup(a: seq<Entry>, b: seq<Entry>, e: Entry, c: seq<Entry>)
    ensures a + ((b + [e]) + c) == (a + b) + ([e] + c)
    ensures a + (b + c) == (a + b) + c
  {
  }

  // Appending an entry at its own price is insertion into the whole list.
  lemma InsertFlat(pool: seq<Slot>, h: Half, pool': seq<Slot>, h': Half, side: Side, bound: nat, e: Entry)
    requires Appended(pool, h, pool', h', side, bound, e)
    ensures Denoted(pool', h', side) == Insert(Denoted(pool, h, side), e)
  {
    var rank := Rank(side, e.price);
    var ahead, here := Span(pool, h.queues, side, 1, rank), Live(pool, h.queues[e.price]);
    var later := Flat(pool, h.queues, side, rank + 1);
    SpanSplit(pool, h.queues, side, 1, rank);
    SpanSplit(pool', h'.queues, side, 1, rank);
    SpanFrame(pool, h.queues, pool', h'.queues, side, 1, rank);
    SameBehind(pool, h, pool', h', side, bound, e);
    Regroup(ahead, here, e, later);
    InsertsBehind(pool, h, side, bound, e);
    InsertsFirst(pool, h, side, bound, e);
  }

  lemma InsertsBehind(pool: seq<Slot>, h: Half, side: Side, bound: nat, e: Entry)
    requires bound <= |pool| && HalfOk(pool, h, side, bound) && Queues(pool, h.queues)
    requires e.side == side && 0 < e.price < MAX_PRICE
    ensures var rank := Rank(side, e.price);
      var ahead, here := Span(pool, h.queues, side, 1, rank), Live(pool, h.queues[e.price]);
      var later := Flat(pool, h.queues, side, rank + 1);
      Insert((ahead + here) + later, e) == (ahead + here) + Insert(later, e)
  {
    var rank := Rank(side, e.price);
    SpanRanks(pool, h, side, bound, 1, rank);
    LevelMembers(pool, h, side, bound, e.price);
    InsertConcat(Span(pool, h.queues, side, 1, rank) + Live(pool, h.queues[e.price]),
                 Flat(pool, h.queues, side, rank + 1), e);
  }
}
