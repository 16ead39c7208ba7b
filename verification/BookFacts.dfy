/** What the reference matcher keeps: well-formed, uncrossed books and bounded quantity changes. */
module BookFacts {
  import opened EngineTypes
  import opened PriceTime

  // ---------------------------------------------------------------- sweeping

  // `e'` is the order `e` with at most its fill state changed.
  predicate SameOrder(e: Entry, e': Entry) {
    && e'.id == e.id && e'.trader == e.trader && e'.price == e.price && e'.side == e.side
    && e'.size <= e.size && e'.size + e'.qtyFilled == e.size + e.qtyFilled
  }

  // The orders left are a suffix of those there were, at most the first of them part-filled.
  predicate Leftover(opp: seq<Entry>, rest: seq<Entry>) {
    && |rest| <= |opp|
    && (rest != [] ==>
          && SameOrder(opp[|opp| - |rest|], rest[0]) && 0 < rest[0].size
          && rest[1..] == opp[|opp| - |rest| + 1..])
  }

  lemma TradeLeftover(agg: Entry, opp: seq<Entry>)
    requires opp != [] && 0 < agg.size && forall i :: 0 <= i < |opp| ==> 0 < opp[i].size
    ensures var now := TradeOnce(agg, opp);
      SameOrder(agg, now.agg) && Leftover(opp, now.rest) && forall i :: 0 <= i < |now.rest| ==> 0 < now.rest[i].size
  {
    var e := opp[0];
    var e' := Traded(e, agg, e.price, Min(agg.size, e.size));
    if e'.size == 0 {
      assert TradeOnce(agg, opp).rest == opp[1..];
    }
  }

  lemma LeftoverTransitive(a: seq<Entry>, b: seq<Entry>, c: seq<Entry>)
    requires Leftover(a, b) && Leftover(b, c)
    ensures Leftover(a, c)
  {
    if c != [] && |c| < |b| {
      assert b[|b| - |c|] == b[1..][|b| - |c| - 1] == a[|a| - |c|];
      assert c[1..] == b[|b| - |c| + 1..] == b[1..][|b| - |c|..] == a[|a| - |c| + 1..];
    }
  }

  lemma {:induction false} SweepLeftover(agg: Entry, opp: seq<Entry>)
    requires forall i :: 0 <= i < |opp| ==> 0 < opp[i].size
    ensures SameOrder(agg, Sweep(agg, opp).agg)
    ensures Leftover(opp, Sweep(agg, opp).rest)
    ensures Sweep(agg, opp).agg.size > 0 && Sweep(agg, opp).rest != [] ==> !Crosses(agg, Sweep(agg, opp).rest[0])
    decreases |opp| + agg.size
  {
    if agg.size == 0 || opp == [] || !Crosses(agg, opp[0]) {
    } else {
      var now := TradeOnce(agg, opp);
      TradeLeftover(agg, opp);
      SweepLeftover(now.agg, now.rest);
      LeftoverTransitive(opp, now.rest, Sweep(now.agg, now.rest).rest);
    }
  }

  lemma LeftoverEach(opp: seq<Entry>, rest: seq<Entry>, i: int)
    requires Leftover(opp, rest) && 0 <= i < |rest|
    ensures SameOrder(opp[|opp| - |rest| + i], rest[i])
  {
    if i > 0 {
      assert rest[i] == rest[1..][i - 1] == opp[|opp| - |rest| + 1..][i - 1];
    }
  }

  lemma LeftoverOk(opp: seq<Entry>, rest: seq<Entry>, side: Side, top: nat)
    requires SideOk(opp, side, top) && Leftover(opp, rest)
    ensures SideOk(rest, side, top)
  {
    var k := |opp| - |rest|;
    forall i | 0 <= i < |rest| ensures SameOrder(opp[k + i], rest[i]) && EntryOk(rest[i], side, top) {
      LeftoverEach(opp, rest, i);
      assert EntryOk(opp[k + i], side, top);
      if i > 0 {
        assert rest[i] == rest[1..][i - 1] == opp[k + 1..][i - 1];
      }
    }
    forall i, j | 0 <= i < j < |rest| ensures Before(rest[i], rest[j]) && rest[i].id != rest[j].id {
      assert Before(opp[k + i], opp[k + j]) && opp[k + i].id != opp[k + j].id;
    }
  }

  lemma TradeSums(agg: Entry, opp: seq<Entry>, price: nat)
    requires opp != []
    ensures var now := TradeOnce(agg, opp);
      && now.agg.size <= agg.size
      && 0 <= SumAt(opp, price) - SumAt(now.rest, price) <= agg.size - now.agg.size
  {
    var now := TradeOnce(agg, opp);
    if |now.rest| == |opp| {
      assert now.rest[1..] == opp[1..];
    } else {
      assert now.rest == opp[1..];
    }
  }

  // A sweep takes from any one price at most what the incoming order gained.
  lemma {:induction false} SweepSums(agg: Entry, opp: seq<Entry>, price: nat)
    ensures SumAt(Sweep(agg, opp).rest, price) <= SumAt(opp, price)
    ensures Sweep(agg, opp).agg.size <= agg.size
    ensures SumAt(opp, price) - SumAt(Sweep(agg, opp).rest, price) <= agg.size - Sweep(agg, opp).agg.size
    decreases |opp| + agg.size
  {
    if agg.size == 0 || opp == [] || !Crosses(agg, opp[0]) {
    } else {
      TradeSums(agg, opp, price);
      SweepSums(TradeOnce(agg, opp).agg, TradeOnce(agg, opp).rest, price);
    }
  }

  // ---------------------------------------------------------------- inserting and removing

  lemma {:induction false} InsertMembers(es: seq<Entry>, e: Entry)
    ensures multiset(Insert(es, e)) == multiset(es) + multiset{e}
  {
    if es != [] {
      assert es == [es[0]] + es[1..];
      if Rank(e.side, es[0].price) <= Rank(e.side, e.price) {
        InsertMembers(es[1..], e);
      }
    }
  }

  lemma {:induction false} InsertAll(es: seq<Entry>, e: Entry, i: nat)
    requires i < |Insert(es, e)|
    ensures Insert(es, e)[i] in es || Insert(es, e)[i] == e
  {
    InsertMembers(es, e);
    assert Insert(es, e)[i] in multiset(Insert(es, e));
  }

  lemma {:induction false} InsertOk(es: seq<Entry>, e: Entry, side: Side, top: nat)
    requires SideOk(es, side, top) && EntryOk(e, side, top)
    requires forall i :: 0 <= i < |es| ==> es[i].id < e.id
    ensures SideOk(Insert(es, e), side, top)
  {
    if es != [] {
      SideTail(es, side, top);
      var out := Insert(es, e);
      if Rank(e.side, es[0].price) <= Rank(e.side, e.price) {
        InsertOk(es[1..], e, side, top);
        forall j | 0 < j < |out| ensures Before(out[0], out[j]) && out[0].id != out[j].id {
          InsertAll(es[1..], e, j - 1);
        }
        SideCons(out[0], out[1..], side, top);
      } else {
        SideCons(e, es, side, top);
      }
    }
  }

  lemma SideTail(es: seq<Entry>, side: Side, top: nat)
    requires SideOk(es, side, top) && es != []
    ensures SideOk(es[1..], side, top)
  {
  }

  lemma SideCons(e: Entry, es: seq<Entry>, side: Side, top: nat)
    requires EntryOk(e, side, top) && SideOk(es, side, top)
    requires forall j :: 0 <= j < |es| ==> Before(e, es[j]) && e.id != es[j].id
    ensures SideOk([e] + es, side, top)
  {
    var out := [e] + es;
    forall i, j | 0 <= i < j < |out| ensures Before(out[i], out[j]) && out[i].id != out[j].id {
      assert out[j] == es[j - 1];
    }
  }

  lemma SideGrows(es: seq<Entry>, side: Side, top: nat, top': nat)
    requires SideOk(es, side, top) && top <= top'
    ensures SideOk(es, side, top')
  {
    forall i | 0 <= i < |es| ensures EntryOk(es[i], side, top') {
      assert EntryOk(es[i], side, top);
    }
  }

  lemma {:induction false} InsertSums(es: seq<Entry>, e: Entry, price: nat)
    ensures SumAt(Insert(es, e), price) == SumAt(es, price) + if e.price == price then e.size else 0
  {
    if es != [] {
      if Rank(e.side, es[0].price) <= Rank(e.side, e.price) {
        InsertSums(es[1..], e, price);
        assert Insert(es, e)[1..] == Insert(es[1..], e);
      } else {
        assert ([e] + es)[1..] == es;
      }
    } else {
      assert SumAt([e][1..], price) == 0;
    }
  }

  lemma {:induction false} RemoveMembers(es: seq<Entry>, id: nat)
    ensures forall i :: 0 <= i < |Remove(es, id)| ==> Remove(es, id)[i] in es && Remove(es, id)[i].id != id
  {
    if es != [] {
      RemoveMembers(es[1..], id);
    }
  }

  lemma {:induction false} RemoveAbsent(es: seq<Entry>, id: nat)
    requires !Has(es, id)
    ensures Remove(es, id) == es
  {
    if es != [] {
      assert forall i :: 0 <= i < |es[1..]| ==> es[1..][i] == es[i + 1];
      RemoveAbsent(es[1..], id);
    }
  }

  lemma {:induction false} RemoveOk(es: seq<Entry>, id: nat, side: Side, top: nat)
    requires SideOk(es, side, top)
    ensures SideOk(Remove(es, id), side, top)
  {
    if es != [] {
      SideTail(es, side, top);
      RemoveOk(es[1..], id, side, top);
      if es[0].id != id {
        RemoveMembers(es[1..], id);
        SideCons(es[0], Remove(es[1..], id), side, top);
      }
    }
  }

  // Cancelling takes the order's own remaining size from its price and nothing else.
  lemma {:induction false} RemoveSums(es: seq<Entry>, id: nat, price: nat)
    requires forall i, j :: 0 <= i < j < |es| ==> es[i].id != es[j].id
    ensures SumAt(Remove(es, id), price) ==
      SumAt(es, price) - if Has(es, id) && Find(es, id).price == price then Find(es, id).size else 0
    ensures SumAt(Remove(es, id), price) <= SumAt(es, price)
  {
    if es != [] {
      assert forall i :: 0 <= i < |es[1..]| ==> es[1..][i] == es[i + 1];
      if es[0].id == id {
        assert !Has(es[1..], id);
        RemoveAbsent(es[1..], id);
        assert Has(es, id) && Find(es, id) == es[0];
      } else {
        RemoveSums(es[1..], id, price);
        assert Has(es, id) <==> Has(es[1..], id);
        assert Remove(es, id)[1..] == Remove(es[1..], id);
      }
    }
  }

  // The incoming order's own side after its sweep, and the report of a remainder.
  function OwnSide(own: seq<Entry>, a: Entry): seq<Entry> { if a.size > 0 then Insert(own, a) else own }

  function RestReport(a: Entry): seq<Event> { if a.size > 0 then [Report(a, OrderAccepted)] else [] }

  // Sweeping and then resting the remainder is matching.
  lemma MatchedIs(b: Book, agg: Entry, s: Swept, own: seq<Entry>, last: seq<Event>)
    requires s == Sweep(agg, b.Orders(agg.side.Opposite()))
    requires own == OwnSide(b.Orders(agg.side), s.agg) && last == RestReport(s.agg)
    ensures var b' := if agg.side.Buy? then Book(own, s.rest, b.top + 1) else Book(s.rest, own, b.top + 1);
      Matched(b, agg) == Outcome(b', agg.id, s.events + last)
  {
  }

  // ---------------------------------------------------------------- books stay well formed

  // The book `b` with sides given from the viewpoint of an incoming order.
  predicate ApartFor(side: Side, own: seq<Entry>, opp: seq<Entry>) {
    if side.Buy? then Apart(own, opp) else Apart(opp, own)
  }

  lemma SweptSide(b: Book, agg: Entry)
    requires WellFormed(b)
    ensures var all := b.Orders(agg.side.Opposite());
      var s := Sweep(agg, all);
      && SideOk(s.rest, agg.side.Opposite(), b.top)
      && SameOrder(agg, s.agg)
      && Leftover(all, s.rest)
      && (s.agg.size > 0 && s.rest != [] ==> !Crosses(agg, s.rest[0]))
  {
    var opp := agg.side.Opposite();
    var all := b.Orders(opp);
    assert SideOk(all, opp, b.top);
    assert forall i :: 0 <= i < |all| ==> EntryOk(all[i], opp, b.top);
    SweepLeftover(agg, all);
    LeftoverOk(all, Sweep(agg, all).rest, opp, b.top);
  }

  lemma LeftoverApart(side: Side, own: seq<Entry>, opp: seq<Entry>, rest: seq<Entry>)
    requires ApartFor(side, own, opp) && Leftover(opp, rest)
    ensures ApartFor(side, own, rest)
  {
    forall j | 0 <= j < |rest| ensures SameOrder(opp[|opp| - |rest| + j], rest[j]) {
      LeftoverEach(opp, rest, j);
    }
  }

  lemma SweptApart(b: Book, agg: Entry)
    requires WellFormed(b)
    ensures ApartFor(agg.side, b.Orders(agg.side), Sweep(agg, b.Orders(agg.side.Opposite())).rest)
  {
    SweptSide(b, agg);
    LeftoverApart(agg.side, b.Orders(agg.side), b.Orders(agg.side.Opposite()),
                  Sweep(agg, b.Orders(agg.side.Opposite())).rest);
  }

  // When the best order of a side is beyond a limit, so is every order of that side.
  lemma BeyondAll(agg: Entry, es: seq<Entry>, top: nat)
    requires SideOk(es, agg.side.Opposite(), top)
    requires es != [] ==> !Crosses(agg, es[0])
    ensures forall j :: 0 <= j < |es| ==> !Crosses(agg, es[j]) && es[j].id < top
  {
    forall j | 0 <= j < |es| ensures !Crosses(agg, es[j]) && es[j].id < top {
      assert EntryOk(es[j], agg.side.Opposite(), top) && EntryOk(es[0], agg.side.Opposite(), top);
      if j > 0 {
        assert Before(es[0], es[j]);
      }
    }
  }

  lemma InsertApart(own: seq<Entry>, e: Entry, opp: seq<Entry>)
    requires ApartFor(e.side, own, opp)
    requires forall j :: 0 <= j < |opp| ==> !Crosses(e, opp[j]) && opp[j].id != e.id
    ensures ApartFor(e.side, Insert(own, e), opp)
  {
    forall i | 0 <= i < |Insert(own, e)| ensures Insert(own, e)[i] in own || Insert(own, e)[i] == e {
      InsertAll(own, e, i);
    }
  }

  // An order rests only where nothing left on the other side is inside its limit.
  lemma RestsApart(b: Book, agg: Entry)
    requires WellFormed(b) && agg.id == b.top
    requires Sweep(agg, b.Orders(agg.side.Opposite())).agg.size > 0
    ensures var s := Sweep(agg, b.Orders(agg.side.Opposite()));
      ApartFor(agg.side, Insert(b.Orders(agg.side), s.agg), s.rest)
  {
    var s := Sweep(agg, b.Orders(agg.side.Opposite()));
    SweptSide(b, agg);
    BeyondAll(agg, s.rest, b.top);
    SweptApart(b, agg);
    InsertApart(b.Orders(agg.side), s.agg, s.rest);
  }

  lemma OwnSideOk(b: Book, agg: Entry)
    requires WellFormed(b) && agg.id == b.top
    requires 0 < agg.price < MAX_PRICE && agg.size + agg.qtyFilled < WORD
    ensures var s := Sweep(agg, b.Orders(agg.side.Opposite()));
      s.agg.size > 0 ==> SideOk(Insert(b.Orders(agg.side), s.agg), agg.side, b.top + 1)
  {
    var own := b.Orders(agg.side);
    var s := Sweep(agg, b.Orders(agg.side.Opposite()));
    SweptSide(b, agg);
    if s.agg.size > 0 {
      SideGrows(own, agg.side, b.top, b.top + 1);
      assert forall i :: 0 <= i < |own| ==> EntryOk(own[i], agg.side, b.top);
      InsertOk(own, s.agg, agg.side, b.top + 1);
    }
  }

  lemma MatchedOk(b: Book, agg: Entry)
    requires WellFormed(b) && b.top < MAX_ORDERS
    requires agg.id == b.top && 0 < agg.price < MAX_PRICE && agg.size + agg.qtyFilled < WORD
    ensures WellFormed(Matched(b, agg).book)
  {
    var opp, own := agg.side.Opposite(), b.Orders(agg.side);
    var s := Sweep(agg, b.Orders(opp));
    assert SideOk(s.rest, opp, b.top + 1) by {
      SweptSide(b, agg);
      SideGrows(s.rest, opp, b.top, b.top + 1);
    }
    if s.agg.size > 0 {
      OwnSideOk(b, agg);
      RestsApart(b, agg);
    } else {
      SideGrows(own, agg.side, b.top, b.top + 1);
      SweptApart(b, agg);
    }
  }

  lemma CancelOk(b: Book, id: nat)
    requires WellFormed(b)
    ensures WellFormed(Book(Remove(b.bids, id), Remove(b.asks, id), b.top))
  {
    RemoveOk(b.bids, id, Buy, b.top);
    RemoveOk(b.asks, id, Sell, b.top);
    RemoveMembers(b.bids, id);
    RemoveMembers(b.asks, id);
  }

  // Every command keeps the book sorted, bounded and uncrossed.
  lemma {:induction false} ExecuteKeepsWellFormed(b: Book, c: Command)
    requires WellFormed(b)
    ensures WellFormed(Execute(b, c).book)
  {
    match c
    case NewOrder(o) =>
      if o.price != 0 && b.top < MAX_ORDERS {
        MatchedOk(b, Incoming(b.top, o));
      }
    case CancelOrder(id) =>
      CancelOk(b, id);
  }

  // ---------------------------------------------------------------- the top of book in 32 bits

  // What the engine compares: the top of book with quantities reduced to a word.
  function Wrapped(t: Top): Top { t.(bidQty := t.bidQty % WORD, askQty := t.askQty % WORD) }

  // The two tops differ by less than a word wherever the best price stayed.
  predicate CloseTops(t: Top, t': Top) {
    && (t.bid == t'.bid ==> -(WORD as int) < t'.bidQty - t.bidQty < WORD)
    && (t.ask == t'.ask ==> -(WORD as int) < t'.askQty - t.askQty < WORD)
  }

  lemma WordsDiffer(x: nat, y: nat)
    requires -(WORD as int) < x - y < WORD
    ensures x % WORD == y % WORD <==> x == y
  {
  }

  // Comparing reduced quantities misses no change and invents none.
  lemma WrappedDetectsChange(t: Top, t': Top)
    requires CloseTops(t, t')
    ensures Wrapped(t) == Wrapped(t') <==> t == t'
  {
    if t.bid == t'.bid {
      WordsDiffer(t'.bidQty, t.bidQty);
    }
    if t.ask == t'.ask {
      WordsDiffer(t'.askQty, t.askQty);
    }
  }

  lemma MatchedTops(b: Book, agg: Entry)
    requires WellFormed(b) && agg.size < WORD
    ensures CloseTops(TopOf(b), TopOf(Matched(b, agg).book))
  {
    var s := Sweep(agg, b.Orders(agg.side.Opposite()));
    SweepSums(agg, b.Orders(agg.side.Opposite()), TopPrice(b.Orders(agg.side.Opposite())));
    InsertSums(b.Orders(agg.side), s.agg, TopPrice(b.Orders(agg.side)));
  }

  lemma CancelTops(b: Book, id: nat)
    requires WellFormed(b)
    ensures CloseTops(TopOf(b), TopOf(Book(Remove(b.bids, id), Remove(b.asks, id), b.top)))
  {
    RemoveSums(b.bids, id, TopPrice(b.bids));
    RemoveSums(b.asks, id, TopPrice(b.asks));
    FindBounded(b.bids, id, Buy, b.top);
    FindBounded(b.asks, id, Sell, b.top);
  }

  lemma FindBounded(es: seq<Entry>, id: nat, side: Side, top: nat)
    requires SideOk(es, side, top)
    ensures Has(es, id) ==> EntryOk(Find(es, id), side, top)
  {
    if Has(es, id) {
      var e := Find(es, id);
      var i :| 0 <= i < |es| && es[i] == e;
      assert EntryOk(es[i], side, top);
    }
  }

  // The engine's report: an event when the reduced top changed.
  function ReportIfChanged(prev: Top, now: Top): seq<Event> {
    if prev == now then [] else [BBOEvent(now.bid, now.bidQty, now.ask, now.askQty)]
  }

  // Comparing 32-bit tops reports exactly the changes of the true top of book.
  lemma ReportIsExact(b: Book, b': Book)
    requires CloseTops(TopOf(b), TopOf(b'))
    ensures ReportIfChanged(Wrapped(TopOf(b)), Wrapped(TopOf(b'))) == BBO(b, b')
  {
    WrappedDetectsChange(TopOf(b), TopOf(b'));
  }

  lemma LimitFacts(b: Book, o: Order)
    requires WellFormed(b) && o.price != 0 && b.top < MAX_ORDERS
    ensures var b' := Matched(b, Incoming(b.top, o)).book;
      WellFormed(b') && ReportIfChanged(Wrapped(TopOf(b)), Wrapped(TopOf(b'))) == BBO(b, b')
  {
    MatchedOk(b, Incoming(b.top, o));
    MatchedTops(b, Incoming(b.top, o));
    ReportIsExact(b, Matched(b, Incoming(b.top, o)).book);
  }

  lemma CancelFacts(b: Book, id: nat)
    requires WellFormed(b)
    ensures var b' := Book(Remove(b.bids, id), Remove(b.asks, id), b.top);
      WellFormed(b') && ReportIfChanged(Wrapped(TopOf(b)), Wrapped(TopOf(b'))) == BBO(b, b')
  {
    CancelOk(b, id);
    CancelTops(b, id);
    ReportIsExact(b, Book(Remove(b.bids, id), Remove(b.asks, id), b.top));
  }
}
