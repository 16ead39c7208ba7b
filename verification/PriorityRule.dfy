/** Who trades how much: the greedy sweep in closed form. */
module PriorityRule {
  import opened EngineTypes
  import opened PriceTime

  function SizeSum(es: seq<Entry>): nat {
    if es == [] then 0 else es[0].size + SizeSum(es[1..])
  }

  // All size inside the incoming order's limit, wherever it stands in the list.
  function CrossingSize(agg: Entry, es: seq<Entry>): nat {
    if es == [] then 0 else (if Crosses(agg, es[0]) then es[0].size else 0) + CrossingSize(agg, es[1..])
  }

  // What the `i`-th resting order trades: its own size, limited by what the better ones leave.
  function Share(agg: Entry, opp: seq<Entry>, i: int): nat
    requires 0 <= i < |opp|
  {
    var ahead := SizeSum(opp[..i]);
    if Crosses(agg, opp[i]) && ahead < agg.size then Min(opp[i].size, agg.size - ahead) else 0
  }

  // Orders inside a limit come first.
  predicate CrossingFirst(agg: Entry, opp: seq<Entry>) {
    && (forall i :: 0 <= i < |opp| ==> 0 < opp[i].size)
    && (forall i, j :: 0 <= i < j < |opp| && Crosses(agg, opp[j]) ==> Crosses(agg, opp[i]))
  }

  predicate FillsByShare(agg: Entry, opp: seq<Entry>, fills: seq<Match>, n: int, i: int)
    requires 0 <= i < |opp| && 0 <= n <= |fills|
  {
    if i < |fills| - n then
      && 0 < Share(agg, opp, i)
      && fills[n + i] == Match(opp[i].id, TraderStr(opp[i].trader), opp[i].price, Share(agg, opp, i))
    else Share(agg, opp, i) == 0
  }

  predicate RestByShare(agg: Entry, opp: seq<Entry>, rest: seq<Entry>, i: int)
    requires 0 <= i < |opp| && |rest| <= |opp|
  {
    var gone := |opp| - |rest|;
    if i < gone then Share(agg, opp, i) == opp[i].size
    else Share(agg, opp, i) + rest[i - gone].size == opp[i].size && 0 < rest[i - gone].size
  }

  // The sweep, said without sweeping: the first orders of the list trade their shares, in order.
  ghost predicate ByPriority(agg: Entry, opp: seq<Entry>, s: Swept) {
    && agg.fills <= s.agg.fills && |s.agg.fills| - |agg.fills| <= |opp| && |s.rest| <= |opp|
    && (forall i :: 0 <= i < |opp| ==> FillsByShare(agg, opp, s.agg.fills, |agg.fills|, i))
    && (forall i :: 0 <= i < |opp| ==> RestByShare(agg, opp, s.rest, i))
    && s.agg.size + Min(agg.size, CrossingSize(agg, opp)) == agg.size
  }

  lemma {:induction false} NoneCross(agg: Entry, es: seq<Entry>)
    requires forall i :: 0 <= i < |es| ==> !Crosses(agg, es[i])
    ensures CrossingSize(agg, es) == 0
  {
    if es != [] {
      NoneCross(agg, es[1..]);
    }
  }

  // Behind a used-up order the shares are those of the smaller incoming order.
  lemma ShareShift(agg: Entry, opp: seq<Entry>, agg': Entry, i: int)
    requires opp != [] && 0 < i < |opp| && opp[0].size <= agg.size
    requires agg'.size == agg.size - opp[0].size && agg'.price == agg.price && agg'.side == agg.side
    ensures Share(agg', opp[1..], i - 1) == Share(agg, opp, i)
  {
    assert opp[..i][0] == opp[0] && opp[..i][1..] == opp[1..][..i - 1];
  }

  lemma ShareHere(agg: Entry, opp: seq<Entry>)
    requires opp != [] && Crosses(agg, opp[0])
    ensures Share(agg, opp, 0) == Min(opp[0].size, agg.size)
  {
    assert SizeSum(opp[..0]) == 0;
  }

  // Once an order is only part-filled, nothing behind it trades.
  lemma ShareBehind(agg: Entry, opp: seq<Entry>, i: int)
    requires opp != [] && 0 < i < |opp| && agg.size <= opp[0].size
    ensures Share(agg, opp, i) == 0
  {
    assert opp[..i][0] == opp[0];
  }

  // Replaces the crossing size by what the smaller incoming order sees.
  lemma {:induction false} CrossingSame(agg: Entry, agg': Entry, es: seq<Entry>)
    requires agg'.price == agg.price && agg'.side == agg.side
    ensures CrossingSize(agg', es) == CrossingSize(agg, es)
  {
    if es != [] {
      CrossingSame(agg, agg', es[1..]);
    }
  }

  lemma StopByPriority(agg: Entry, opp: seq<Entry>)
    requires CrossingFirst(agg, opp)
    requires agg.size == 0 || opp == [] || !Crosses(agg, opp[0])
    ensures ByPriority(agg, opp, Swept(agg, opp, []))
  {
    if agg.size > 0 {
      NoneCross(agg, opp);
    }
  }

  lemma PartOnce(agg: Entry, opp: seq<Entry>)
    requires opp != [] && Crosses(agg, opp[0]) && 0 < agg.size < opp[0].size
    ensures var s := Sweep(agg, opp);
      && s.agg == Traded(agg, opp[0], opp[0].price, agg.size)
      && s.rest == [Traded(opp[0], agg, opp[0].price, agg.size)] + opp[1..]
  {
    var now := TradeOnce(agg, opp);
    assert Sweep(now.agg, now.rest) == Swept(now.agg, now.rest, []);
  }

  lemma PartHere(agg: Entry, opp: seq<Entry>, s: Swept)
    requires opp != [] && Crosses(agg, opp[0]) && 0 < agg.size < opp[0].size
    requires s.agg == Traded(agg, opp[0], opp[0].price, agg.size)
    requires s.rest == [Traded(opp[0], agg, opp[0].price, agg.size)] + opp[1..]
    ensures FillsByShare(agg, opp, s.agg.fills, |agg.fills|, 0) && RestByShare(agg, opp, s.rest, 0)
  {
    ShareHere(agg, opp);
  }

  lemma PartBehind(agg: Entry, opp: seq<Entry>, s: Swept, i: int)
    requires opp != [] && 0 < agg.size < opp[0].size && 0 < i < |opp| && 0 < opp[i].size
    requires s.agg == Traded(agg, opp[0], opp[0].price, agg.size)
    requires s.rest == [Traded(opp[0], agg, opp[0].price, agg.size)] + opp[1..]
    ensures FillsByShare(agg, opp, s.agg.fills, |agg.fills|, i) && RestByShare(agg, opp, s.rest, i)
  {
    ShareBehind(agg, opp, i);
    assert s.rest[i] == opp[i];
  }

  lemma PartAt(agg: Entry, opp: seq<Entry>, i: int)
    requires opp != [] && Crosses(agg, opp[0]) && 0 < agg.size < opp[0].size && 0 <= i < |opp| && 0 < opp[i].size
    ensures var s := Sweep(agg, opp);
      && |s.rest| == |opp| && |s.agg.fills| == |agg.fills| + 1
      && FillsByShare(agg, opp, s.agg.fills, |agg.fills|, i) && RestByShare(agg, opp, s.rest, i)
  {
    PartOnce(agg, opp);
    if i == 0 {
      PartHere(agg, opp, Sweep(agg, opp));
    } else {
      PartBehind(agg, opp, Sweep(agg, opp), i);
    }
  }

  lemma PartByPriority(agg: Entry, opp: seq<Entry>)
    requires CrossingFirst(agg, opp) && opp != [] && Crosses(agg, opp[0]) && 0 < agg.size < opp[0].size
    ensures ByPriority(agg, opp, Sweep(agg, opp))
  {
    var s := Sweep(agg, opp);
    PartOnce(agg, opp);
    forall i | 0 <= i < |opp|
      ensures FillsByShare(agg, opp, s.agg.fills, |agg.fills|, i) && RestByShare(agg, opp, s.rest, i)
    {
      PartAt(agg, opp, i);
    }
  }

  lemma FullOnce(agg: Entry, opp: seq<Entry>)
    requires opp != [] && Crosses(agg, opp[0]) && 0 < opp[0].size <= agg.size
    ensures var agg' := Traded(agg, opp[0], opp[0].price, opp[0].size);
      var later := Sweep(agg', opp[1..]);
      TradeOnce(agg, opp).agg == agg' && Sweep(agg, opp).agg == later.agg && Sweep(agg, opp).rest == later.rest
  {
    assert TradeOnce(agg, opp).rest == opp[1..];
  }

  lemma FullAt(agg: Entry, opp: seq<Entry>, s: Swept, i: int)
    requires opp != [] && Crosses(agg, opp[0]) && 0 < opp[0].size <= agg.size && 0 <= i < |opp|
    requires var agg' := Traded(agg, opp[0], opp[0].price, opp[0].size);
      && agg'.fills <= s.agg.fills && |s.rest| <= |opp| - 1
      && (i > 0 ==> FillsByShare(agg', opp[1..], s.agg.fills, |agg'.fills|, i - 1))
      && (i > 0 ==> RestByShare(agg', opp[1..], s.rest, i - 1))
    ensures FillsByShare(agg, opp, s.agg.fills, |agg.fills|, i) && RestByShare(agg, opp, s.rest, i)
  {
    var agg' := Traded(agg, opp[0], opp[0].price, opp[0].size);
    if i == 0 {
      ShareHere(agg, opp);
      assert s.agg.fills[|agg.fills|] == agg'.fills[|agg.fills|];
    } else {
      ShareShift(agg, opp, agg', i);
    }
  }

  lemma FullExtends(agg: Entry, opp: seq<Entry>, s: Swept)
    requires opp != [] && Crosses(agg, opp[0]) && 0 < opp[0].size <= agg.size
    requires ByPriority(Traded(agg, opp[0], opp[0].price, opp[0].size), opp[1..], s)
    ensures ByPriority(agg, opp, s)
  {
    var agg' := Traded(agg, opp[0], opp[0].price, opp[0].size);
    CrossingSame(agg, agg', opp[1..]);
    forall i | 0 <= i < |opp|
      ensures FillsByShare(agg, opp, s.agg.fills, |agg.fills|, i) && RestByShare(agg, opp, s.rest, i)
    {
      FullAt(agg, opp, s, i);
    }
  }

  lemma SamePriority(agg: Entry, opp: seq<Entry>, s: Swept, s': Swept)
    requires ByPriority(agg, opp, s) && s'.agg == s.agg && s'.rest == s.rest
    ensures ByPriority(agg, opp, s')
  {
  }

  lemma {:induction false} SweepByPriority(agg: Entry, opp: seq<Entry>)
    requires CrossingFirst(agg, opp)
    ensures ByPriority(agg, opp, Sweep(agg, opp))
    decreases |opp|
  {
    if agg.size == 0 || opp == [] || !Crosses(agg, opp[0]) {
      StopByPriority(agg, opp);
    } else if agg.size < opp[0].size {
      PartByPriority(agg, opp);
    } else {
      var agg' := Traded(agg, opp[0], opp[0].price, opp[0].size);
      SweepByPriority(agg', opp[1..]);
      FullExtends(agg, opp, Sweep(agg', opp[1..]));
      FullOnce(agg, opp);
      SamePriority(agg, opp, Sweep(agg', opp[1..]), Sweep(agg, opp));
    }
  }

  lemma SideCrossesFirst(b: Book, agg: Entry)
    requires WellFormed(b)
    ensures CrossingFirst(agg, b.Orders(agg.side.Opposite()))
  {
    var opp := b.Orders(agg.side.Opposite());
    assert forall i :: 0 <= i < |opp| ==> EntryOk(opp[i], agg.side.Opposite(), b.top);
    forall i, j | 0 <= i < j < |opp| && Crosses(agg, opp[j]) ensures Crosses(agg, opp[i]) {
      assert Before(opp[i], opp[j]);
    }
  }

  // A new order trades with the opposite side best price first and lowest id first, each resting
  // order at its own price and for its share; it rests a remainder only when it exceeds all the
  // size inside its limit.
  lemma LimitFillsByPriority(b: Book, o: Order)
    requires WellFormed(b)
    ensures var agg, opp := Incoming(b.top, o), b.Orders(o.side.Opposite());
      ByPriority(agg, opp, Sweep(agg, opp)) && SideOk(opp, o.side.Opposite(), b.top)
  {
    SideCrossesFirst(b, Incoming(b.top, o));
    SweepByPriority(Incoming(b.top, o), b.Orders(o.side.Opposite()));
  }

  // The acceptance of a remainder carries fills if and only if something was inside its limit.
  lemma AcceptanceCarriesFillsIff(b: Book, o: Order)
    requires WellFormed(b) && o.price != 0 && b.top < MAX_ORDERS
    requires Sweep(Incoming(b.top, o), b.Orders(o.side.Opposite())).agg.size > 0
    ensures var agg, opp := Incoming(b.top, o), b.Orders(o.side.Opposite());
      var accepted := Report(Sweep(agg, opp).agg, OrderAccepted);
      && accepted in Limit(b, o).events
      && (accepted.fills != [] <==> opp != [] && Crosses(agg, opp[0]))
  {
    var agg, opp := Incoming(b.top, o), b.Orders(o.side.Opposite());
    var s := Sweep(agg, opp);
    LimitFillsByPriority(b, o);
    assert Matched(b, agg).events[|s.events|] == Report(s.agg, OrderAccepted);
    if opp != [] {
      assert FillsByShare(agg, opp, s.agg.fills, 0, 0) && 0 < opp[0].size && SizeSum(opp[..0]) == 0;
    }
  }

  // An order of size 0 takes an id and leaves no other trace; cancelling it is refused as filled.
  lemma EmptyOrderIsSilent(b: Book, o: Order)
    requires WellFormed(b) && o.price != 0 && o.size == 0 && b.top < MAX_ORDERS
    ensures var b' := b.(top := b.top + 1);
      && Limit(b, o) == Outcome(b', b.top, [])
      && Cancel(b', b.top) == Outcome(b', b.top, [Rejection(b.top, [], AlreadyFilled)])
  {
    var all := b.bids + b.asks;
    forall i | 0 <= i < |all| ensures all[i].id != b.top {
      assert i < |b.bids| ==> EntryOk(b.bids[i], Buy, b.top);
      assert i >= |b.bids| ==> EntryOk(b.asks[i - |b.bids|], Sell, b.top);
    }
  }
}
