/** The engine's storage as values: slots, per-price linked queues, and the lists they denote. */
module Levels {
  import opened EngineTypes
  import opened PriceTime

  datatype Slot = Slot(trader: Trader, size: nat, next: nat, price: nat, side: Side, active: bool,
                       qtyFilled: nat, fills: seq<Match>)

  datatype Level = Level(head: nat, tail: nat)

  const EMPTY_SLOT := Slot([0, 0, 0, 0, 0, 0, 0, 0], 0, NONE, 0, Buy, false, 0, [])
  const EMPTY_LEVEL := Level(NONE, NONE)

  // One side of the book: the level array, the ids linked at each price, and the rank of the
  // price cursor (askMin itself, or MAX_PRICE - bidMax).
  datatype Half = Half(levels: seq<Level>, queues: seq<seq<nat>>, cursor: int)

  function PriceAt(side: Side, rank: int): int { if side.Buy? then MAX_PRICE - rank else rank }

  // ---------------------------------------------------------------- the denoted lists

  function EntryOf(id: nat, s: Slot): Entry { Entry(id, s.trader, s.price, s.size, s.side, s.qtyFilled, s.fills) }

  predicate InPool(pool: seq<Slot>, q: seq<nat>) { forall i :: 0 <= i < |q| ==> q[i] < |pool| }

  // The active orders of one queue, front first.
  ghost function Live(pool: seq<Slot>, q: seq<nat>): seq<Entry>
    requires InPool(pool, q)
  {
    if q == [] then []
    else (if pool[q[0]].active then [EntryOf(q[0], pool[q[0]])] else []) + Live(pool, q[1..])
  }

  ghost predicate Queues(pool: seq<Slot>, qs: seq<seq<nat>>) {
    && |qs| == MAX_PRICE
    && forall p :: 0 <= p < MAX_PRICE ==> InPool(pool, qs[p])
  }

  // The active orders of all queues from a rank on, best price first.
  ghost function Flat(pool: seq<Slot>, qs: seq<seq<nat>>, side: Side, rank: int): seq<Entry>
    requires Queues(pool, qs)
    requires 1 <= rank <= MAX_PRICE
    decreases MAX_PRICE - rank, |qs|
  {
    if rank == MAX_PRICE then []
    else Live(pool, qs[PriceAt(side, rank)]) + Flat(pool, qs, side, rank + 1)
  }

  // ---------------------------------------------------------------- representation invariant

  // What a pointer to the `i`-th node of a queue holds.
  function NodeAt(q: seq<nat>, i: int): nat
    requires 0 <= i <= |q|
  {
    if i < |q| then q[i] else NONE
  }

  ghost predicate Chained(pool: seq<Slot>, q: seq<nat>, i: int) {
    0 <= i < |q| && q[i] < |pool| && pool[q[i]].next == NodeAt(q, i + 1)
  }

  // `q` is the linked list of `level`: strictly increasing ids below `bound`, each of the
  // level's side and price, chained by `next`, with `tail` the last of them.
  ghost predicate LevelOk(pool: seq<Slot>, level: Level, q: seq<nat>, side: Side, price: int, bound: nat)
    requires bound <= |pool|
  {
    && (q == [] ==> level == EMPTY_LEVEL)
    && (q != [] ==> level == Level(q[0], q[|q| - 1]))
    && (forall i :: 0 <= i < |q| ==> 0 < q[i] < bound)
    && (forall i :: 0 <= i < |q| ==> pool[q[i]].side == side && pool[q[i]].price == price)
    && (forall i :: 0 <= i < |q| ==> Chained(pool, q, i))
    && (forall i, j :: 0 <= i < j < |q| ==> q[i] < q[j])
  }

  ghost predicate SlotOk(s: Slot) {
    && (s.active ==> 0 < s.size && 0 < s.price)
    && s.price < MAX_PRICE
    && (!s.active ==> s.size == 0)
    && s.size + s.qtyFilled < WORD
  }

  // An active slot of this side is linked at its own price, no better than the cursor.
  ghost predicate Placed(pool: seq<Slot>, h: Half, side: Side, id: nat)
    requires id < |pool| && |h.queues| == MAX_PRICE
  {
    pool[id].active && pool[id].side == side ==>
      pool[id].price < MAX_PRICE && id in h.queues[pool[id].price] && h.cursor <= Rank(side, pool[id].price)
  }

  ghost predicate PoolOk(pool: seq<Slot>, bound: nat) {
    && 1 <= bound <= |pool| == MAX_ORDERS
    && (forall id :: 0 <= id < bound ==> SlotOk(pool[id]))
    && !pool[0].active
  }

  // One side is linked correctly; `bound` is the number of ids that may be resting.
  ghost predicate HalfOk(pool: seq<Slot>, h: Half, side: Side, bound: nat)
    requires bound <= |pool|
  {
    && |h.levels| == |h.queues| == MAX_PRICE
    && 1 <= h.cursor <= MAX_PRICE
    && (forall p {:trigger LevelOk(pool, h.levels[p], h.queues[p], side, p, bound)} ::
          0 <= p < MAX_PRICE ==> LevelOk(pool, h.levels[p], h.queues[p], side, p, bound))
    && (forall id :: 0 <= id < bound ==> Placed(pool, h, side, id))
  }

  // The list a side denotes.
  ghost function Denoted(pool: seq<Slot>, h: Half, side: Side): seq<Entry>
    requires Queues(pool, h.queues)
  {
    Flat(pool, h.queues, side, 1)
  }

  lemma HalfQueues(pool: seq<Slot>, h: Half, side: Side, bound: nat)
    requires bound <= |pool| && HalfOk(pool, h, side, bound)
    ensures Queues(pool, h.queues)
  {
    forall p | 0 <= p < MAX_PRICE ensures InPool(pool, h.queues[p]) {
      assert LevelOk(pool, h.levels[p], h.queues[p], side, p, bound);
    }
  }

  predicate SameLink(s: Slot, s': Slot) { s.side == s'.side && s.price == s'.price && s.next == s'.next }

  lemma LevelFrame(pool: seq<Slot>, pool': seq<Slot>, level: Level, q: seq<nat>, side: Side, price: int,
                   bound: nat, bound': nat)
    requires bound <= |pool| && bound <= bound' <= |pool'|
    requires LevelOk(pool, level, q, side, price, bound)
    requires forall i :: 0 <= i < |q| && q[i] < bound ==> SameLink(pool[q[i]], pool'[q[i]])
    ensures LevelOk(pool', level, q, side, price, bound')
  {
    forall i | 0 <= i < |q| ensures Chained(pool', q, i) {
      assert Chained(pool, q, i);
    }
  }

  // ---------------------------------------------------------------- lemmas on single queues

  lemma {:induction false} LiveConcat(pool: seq<Slot>, a: seq<nat>, b: seq<nat>)
    requires InPool(pool, a + b)
    ensures InPool(pool, a) && InPool(pool, b)
    ensures Live(pool, a + b) == Live(pool, a) + Live(pool, b)
  {
    assert forall i :: 0 <= i < |a| ==> (a + b)[i] == a[i];
    assert forall i :: 0 <= i < |b| ==> (a + b)[|a| + i] == b[i];
    if a == [] {
      assert a + b == b;
    } else {
      assert (a + b)[1..] == a[1..] + b;
      LiveConcat(pool, a[1..], b);
    }
  }

  lemma {:induction false} LiveInactive(pool: seq<Slot>, q: seq<nat>)
    requires InPool(pool, q)
    requires forall i :: 0 <= i < |q| ==> !pool[q[i]].active
    ensures Live(pool, q) == []
  {
    if q != [] {
      LiveInactive(pool, q[1..]);
    }
  }

  // Only the entries and activity of the queued slots matter, not their links.
  lemma {:induction false} LiveFrame(pool: seq<Slot>, pool': seq<Slot>, q: seq<nat>)
    requires InPool(pool, q) && InPool(pool', q)
    requires forall i :: 0 <= i < |q| ==>
      pool[q[i]].active == pool'[q[i]].active && EntryOf(q[i], pool[q[i]]) == EntryOf(q[i], pool'[q[i]])
    ensures Live(pool, q) == Live(pool', q)
  {
    if q != [] {
      LiveFrame(pool, pool', q[1..]);
    }
  }

  // `e` is an active slot of this side.
  ghost predicate LiveEntry(pool: seq<Slot>, e: Entry, side: Side, bound: nat) {
    && e.side == side
    && 0 < e.id < bound
    && e.id < |pool|
    && pool[e.id].active
    && e == EntryOf(e.id, pool[e.id])
  }

  lemma {:induction false} LiveMembers(pool: seq<Slot>, q: seq<nat>, side: Side, price: nat, bound: nat)
    requires bound <= |pool| && InPool(pool, q)
    requires forall i :: 0 <= i < |q| ==> 0 < q[i] < bound && pool[q[i]].side == side && pool[q[i]].price == price
    ensures forall k :: 0 <= k < |Live(pool, q)| ==>
      LiveEntry(pool, Live(pool, q)[k], side, bound) && Live(pool, q)[k].price == price
  {
    if q != [] {
      LiveMembers(pool, q[1..], side, price, bound);
    }
  }

  lemma LevelMembers(pool: seq<Slot>, h: Half, side: Side, bound: nat, price: int)
    requires bound <= |pool| && HalfOk(pool, h, side, bound) && Queues(pool, h.queues)
    requires 0 <= price < MAX_PRICE
    ensures forall k :: 0 <= k < |Live(pool, h.queues[price])| ==>
      LiveEntry(pool, Live(pool, h.queues[price])[k], side, bound) && Live(pool, h.queues[price])[k].price == price
  {
    assert LevelOk(pool, h.levels[price], h.queues[price], side, price, bound);
    LiveMembers(pool, h.queues[price], side, price, bound);
  }

  lemma {:induction false} LiveContains(pool: seq<Slot>, q: seq<nat>, id: nat)
    requires InPool(pool, q) && id in q && pool[id].active
    ensures EntryOf(id, pool[id]) in Live(pool, q)
  {
    if q[0] != id {
      LiveContains(pool, q[1..], id);
    }
  }

  // Deactivating a slot removes its entry from whatever queue it is in.
  lemma {:induction false} LiveRemove(pool: seq<Slot>, q: seq<nat>, id: nat, s: Slot)
    requires InPool(pool, q) && id < |pool| && !s.active
    ensures Live(pool[id := s], q) == Remove(Live(pool, q), id)
  {
    if q != [] {
      LiveRemove(pool, q[1..], id, s);
      var first := if pool[q[0]].active then [EntryOf(q[0], pool[q[0]])] else [];
      RemoveConcat(first, Live(pool, q[1..]), id);
    }
  }

  // ---------------------------------------------------------------- lemmas on a whole side

  lemma {:induction false} FlatFrame(pool: seq<Slot>, qs: seq<seq<nat>>, pool': seq<Slot>, qs': seq<seq<nat>>,
                                     side: Side, rank: int)
    requires Queues(pool, qs) && Queues(pool', qs')
    requires 1 <= rank <= MAX_PRICE
    requires forall r :: rank <= r < MAX_PRICE ==>
      Live(pool, qs[PriceAt(side, r)]) == Live(pool', qs'[PriceAt(side, r)])
    ensures Flat(pool, qs, side, rank) == Flat(pool', qs', side, rank)
    decreases MAX_PRICE - rank
  {
    if rank < MAX_PRICE {
      FlatFrame(pool, qs, pool', qs', side, rank + 1);
    }
  }

  lemma {:induction false} FlatSkip(pool: seq<Slot>, qs: seq<seq<nat>>, side: Side, lo: int, hi: int)
    requires Queues(pool, qs)
    requires 1 <= lo <= hi <= MAX_PRICE
    requires forall r :: lo <= r < hi ==> Live(pool, qs[PriceAt(side, r)]) == []
    ensures Flat(pool, qs, side, lo) == Flat(pool, qs, side, hi)
    decreases hi - lo
  {
    if lo < hi {
      FlatSkip(pool, qs, side, lo + 1, hi);
    }
  }

  lemma RemoveConcat(a: seq<Entry>, b: seq<Entry>, id: nat)
    ensures Remove(a + b, id) == Remove(a, id) + Remove(b, id)
  {
    if a == [] {
      assert a + b == b;
    } else {
      assert (a + b)[1..] == a[1..] + b;
      RemoveConcat(a[1..], b, id);
    }
  }

  lemma {:induction false} FlatRemove(pool: seq<Slot>, qs: seq<seq<nat>>, side: Side, rank: int, id: nat, s: Slot)
    requires Queues(pool, qs) && id < |pool| && !s.active
    requires 1 <= rank <= MAX_PRICE
    ensures Queues(pool[id := s], qs)
    ensures Flat(pool[id := s], qs, side, rank) == Remove(Flat(pool, qs, side, rank), id)
    decreases MAX_PRICE - rank
  {
    forall p | 0 <= p < MAX_PRICE ensures InPool(pool[id := s], qs[p]) {
      assert InPool(pool, qs[p]);
    }
    if rank < MAX_PRICE {
      FlatRemove(pool, qs, side, rank + 1, id, s);
      var q := qs[PriceAt(side, rank)];
      LiveRemove(pool, q, id, s);
      RemoveConcat(Live(pool, q), Flat(pool, qs, side, rank + 1), id);
    }
  }

  // Every entry from a rank on is an active slot of that rank or a later one.
  lemma {:induction false} FlatMembers(pool: seq<Slot>, h: Half, side: Side, bound: nat, rank: int)
    requires bound <= |pool| && HalfOk(pool, h, side, bound) && Queues(pool, h.queues)
    requires 1 <= rank <= MAX_PRICE
    ensures forall k :: 0 <= k < |Flat(pool, h.queues, side, rank)| ==>
      var e := Flat(pool, h.queues, side, rank)[k];
      LiveEntry(pool, e, side, bound) && 0 < e.price < MAX_PRICE && rank <= Rank(side, e.price)
    decreases MAX_PRICE - rank
  {
    if rank < MAX_PRICE {
      LevelMembers(pool, h, side, bound, PriceAt(side, rank));
      FlatMembers(pool, h, side, bound, rank + 1);
    }
  }

  lemma {:induction false} FlatContains(pool: seq<Slot>, qs: seq<seq<nat>>, side: Side, rank: int, id: nat)
    requires Queues(pool, qs) && id < |pool| && pool[id].active
    requires 1 <= rank <= Rank(side, pool[id].price) < MAX_PRICE
    requires id in qs[pool[id].price]
    ensures EntryOf(id, pool[id]) in Flat(pool, qs, side, rank)
    decreases MAX_PRICE - rank
  {
    var q := qs[PriceAt(side, rank)];
    if rank == Rank(side, pool[id].price) {
      LiveContains(pool, q, id);
    } else {
      FlatContains(pool, qs, side, rank + 1, id);
    }
  }

  // No order is better than the cursor, so scanning may start there.
  lemma CursorSkips(pool: seq<Slot>, h: Half, side: Side, bound: nat)
    requires bound <= |pool| && HalfOk(pool, h, side, bound) && Queues(pool, h.queues)
    ensures Denoted(pool, h, side) == Flat(pool, h.queues, side, h.cursor)
  {
    forall r | 1 <= r < h.cursor ensures Live(pool, h.queues[PriceAt(side, r)]) == [] {
      var p := PriceAt(side, r);
      var q := h.queues[p];
      assert LevelOk(pool, h.levels[p], q, side, p, bound);
      forall i | 0 <= i < |q| ensures !pool[q[i]].active {
        assert Placed(pool, h, side, q[i]);
      }
      LiveInactive(pool, q);
    }
    FlatSkip(pool, h.queues, side, 1, h.cursor);
  }

  lemma InsertConcat(a: seq<Entry>, b: seq<Entry>, e: Entry)
    requires forall i :: 0 <= i < |a| ==> Rank(e.side, a[i].price) <= Rank(e.side, e.price)
    ensures Insert(a + b, e) == a + Insert(b, e)
  {
    if a == [] {
      assert a + b == b;
    } else {
      assert (a + b)[1..] == a[1..] + b;
      InsertConcat(a[1..], b, e);
    }
  }

  // ---------------------------------------------------------------- walking a queue

  lemma NextNode(pool: seq<Slot>, level: Level, q: seq<nat>, side: Side, price: int, bound: nat, i: int)
    requires bound <= |pool| && LevelOk(pool, level, q, side, price, bound)
    requires 0 <= i < |q|
    ensures 0 < q[i] < bound && pool[q[i]].next == NodeAt(q, i + 1)
  {
    assert Chained(pool, q, i);
  }

  lemma LiveFrom(pool: seq<Slot>, q: seq<nat>, i: int)
    requires InPool(pool, q) && 0 <= i < |q|
    ensures InPool(pool, q[i..]) && InPool(pool, q[i + 1..])
    ensures Live(pool, q[i..]) ==
      (if pool[q[i]].active then [EntryOf(q[i], pool[q[i]])] else []) + Live(pool, q[i + 1..])
  {
    assert q[i..][1..] == q[i + 1..];
  }

  lemma {:induction false} SumConcat(a: seq<Entry>, b: seq<Entry>, price: nat)
    ensures SumAt(a + b, price) == SumAt(a, price) + SumAt(b, price)
  {
    if a == [] {
      assert a + b == b;
    } else {
      assert (a + b)[1..] == a[1..] + b;
      SumConcat(a[1..], b, price);
    }
  }

  lemma {:induction false} SumElsewhere(es: seq<Entry>, price: nat)
    requires forall i :: 0 <= i < |es| ==> es[i].price != price
    ensures SumAt(es, price) == 0
  {
    if es != [] {
      SumElsewhere(es[1..], price);
    }
  }

  lemma SumBehind(pool: seq<Slot>, h: Half, side: Side, bound: nat, price: nat)
    requires bound <= |pool| && HalfOk(pool, h, side, bound) && Queues(pool, h.queues)
    requires 0 < price < MAX_PRICE
    ensures SumAt(Flat(pool, h.queues, side, Rank(side, price) + 1), price) == 0
  {
    FlatMembers(pool, h, side, bound, Rank(side, price) + 1);
    SumElsewhere(Flat(pool, h.queues, side, Rank(side, price) + 1), price);
  }

  lemma SumBefore(pool: seq<Slot>, h: Half, side: Side, bound: nat, p: int, price: nat)
    requires bound <= |pool| && HalfOk(pool, h, side, bound) && Queues(pool, h.queues)
    requires 0 <= p < MAX_PRICE && p != price
    ensures SumAt(Live(pool, h.queues[p]), price) == 0
  {
    LevelMembers(pool, h, side, bound, p);
    SumElsewhere(Live(pool, h.queues[p]), price);
  }

  // The size resting at one price is the size in that price's queue.
  lemma {:induction false} FlatSum(pool: seq<Slot>, h: Half, side: Side, bound: nat, rank: int, price: nat)
    requires bound <= |pool| && HalfOk(pool, h, side, bound) && Queues(pool, h.queues)
    requires 0 < price < MAX_PRICE && 1 <= rank <= Rank(side, price)
    ensures SumAt(Flat(pool, h.queues, side, rank), price) == SumAt(Live(pool, h.queues[price]), price)
    decreases MAX_PRICE - rank
  {
    SumConcat(Live(pool, h.queues[PriceAt(side, rank)]), Flat(pool, h.queues, side, rank + 1), price);
    if rank == Rank(side, price) {
      SumBehind(pool, h, side, bound, price);
    } else {
      FlatSum(pool, h, side, bound, rank + 1, price);
      SumBefore(pool, h, side, bound, PriceAt(side, rank), price);
    }
  }

  lemma QtyOfLevel(pool: seq<Slot>, h: Half, side: Side, bound: nat)
    requires bound <= |pool| && HalfOk(pool, h, side, bound) && Queues(pool, h.queues)
    ensures var es := Denoted(pool, h, side);
      && TopPrice(es) < MAX_PRICE
      && TopQty(es) == if TopPrice(es) == 0 then 0 else SumAt(Live(pool, h.queues[TopPrice(es)]), TopPrice(es))
  {
    var es := Denoted(pool, h, side);
    if es != [] {
      FlatMembers(pool, h, side, bound, 1);
      assert 0 < es[0].price < MAX_PRICE;
      FlatSum(pool, h, side, bound, 1, es[0].price);
    }
  }

  lemma SumFrom(pool: seq<Slot>, q: seq<nat>, i: int, price: nat)
    requires InPool(pool, q) && 0 <= i < |q| && pool[q[i]].price == price
    ensures InPool(pool, q[i..]) && InPool(pool, q[i + 1..])
    ensures SumAt(Live(pool, q[i..]), price) ==
      (if pool[q[i]].active then pool[q[i]].size else 0) + SumAt(Live(pool, q[i + 1..]), price)
  {
    LiveFrom(pool, q, i);
    SumConcat(if pool[q[i]].active then [EntryOf(q[i], pool[q[i]])] else [], Live(pool, q[i + 1..]), price);
  }

  lemma WrapAdd(x: nat, y: nat)
    ensures (x % WORD + y) % WORD == (x + y) % WORD
  {
  }

  function Here(pool: seq<Slot>, id: nat): seq<Entry>
    requires id < |pool|
  {
    if pool[id].active then [EntryOf(id, pool[id])] else []
  }

  // `es` are the active orders of a queue before its `i`-th node.
  ghost predicate CollectedTo(pool: seq<Slot>, q: seq<nat>, i: int, es: seq<Entry>)
    requires InPool(pool, q)
  {
    0 <= i <= |q| && InPool(pool, q[i..]) && es + Live(pool, q[i..]) == Live(pool, q)
  }

  lemma CollectNone(pool: seq<Slot>, q: seq<nat>)
    requires InPool(pool, q)
    ensures CollectedTo(pool, q, 0, [])
  {
    assert q[0..] == q;
    assert [] + Live(pool, q) == Live(pool, q);
  }

  lemma CollectNext(pool: seq<Slot>, q: seq<nat>, i: int, es: seq<Entry>)
    requires InPool(pool, q) && 0 <= i < |q| && CollectedTo(pool, q, i, es)
    ensures CollectedTo(pool, q, i + 1, es + Here(pool, q[i]))
  {
    LiveFrom(pool, q, i);
  }

  lemma CollectAll(pool: seq<Slot>, q: seq<nat>, es: seq<Entry>)
    requires InPool(pool, q) && CollectedTo(pool, q, |q|, es)
    ensures es == Live(pool, q)
  {
    assert q[|q|..] == [];
  }

  // `es` are the active orders of all ranks better than `rank`.
  ghost predicate GatheredTo(pool: seq<Slot>, qs: seq<seq<nat>>, side: Side, rank: int, es: seq<Entry>, all: seq<Entry>)
    requires Queues(pool, qs)
  {
    1 <= rank <= MAX_PRICE && es + Flat(pool, qs, side, rank) == all
  }

  // Collecting one more price.
  lemma CollectPrice(pool: seq<Slot>, qs: seq<seq<nat>>, side: Side, rank: int, es: seq<Entry>, all: seq<Entry>)
    requires Queues(pool, qs) && 1 <= rank < MAX_PRICE && GatheredTo(pool, qs, side, rank, es, all)
    ensures GatheredTo(pool, qs, side, rank + 1, es + Live(pool, qs[PriceAt(side, rank)]), all)
  {
  }

  lemma GatheredAll(pool: seq<Slot>, qs: seq<seq<nat>>, side: Side, es: seq<Entry>, all: seq<Entry>)
    requires Queues(pool, qs) && GatheredTo(pool, qs, side, MAX_PRICE, es, all)
    ensures es == all
  {
  }
}
