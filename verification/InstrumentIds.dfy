/** Instrument ids (registry/internal/hash.go). */
module InstrumentIds {
  import opened Instruments

  // ---------------------------------------------------------------- strings in order

  predicate Before(a: string, b: string) {
    a == [] || (b != [] && (a[0] < b[0] || (a[0] == b[0] && Before(a[1..], b[1..]))))
  }

  lemma {:induction false} BeforeTotal(a: string, b: string)
    ensures Before(a, b) || Before(b, a)
    ensures Before(a, b) && Before(b, a) ==> a == b
  {
    if a != [] && b != [] && a[0] == b[0] {
      BeforeTotal(a[1..], b[1..]);
      assert a == [a[0]] + a[1..] && b == [b[0]] + b[1..];
    }
  }

  // `a` and `b` agree before `k`, and there `a` has the smaller character.
  predicate SmallerAt(a: string, b: string, k: nat) { k < |a| && k < |b| && a[..k] == b[..k] && a[k] < b[k] }

  // The order is that of a dictionary.
  lemma {:induction false} BeforeIff(a: string, b: string)
    ensures Before(a, b) <==> a <= b || exists k: nat :: SmallerAt(a, b, k)
  {
    if a != [] && b != [] {
      assert a == [a[0]] + a[1..] && b == [b[0]] + b[1..];
      assert a[0] < b[0] ==> SmallerAt(a, b, 0);
      BeforeIff(a[1..], b[1..]);
      if k: nat :| SmallerAt(a, b, k) && k > 0 {
        assert a[0] == a[..k][0] == b[..k][0] == b[0];
        assert a[1..][..k - 1] == a[..k][1..] && b[1..][..k - 1] == b[..k][1..];
        assert SmallerAt(a[1..], b[1..], k - 1);
      }
      if k: nat :| SmallerAt(a[1..], b[1..], k) && a[0] == b[0] {
        assert a[..k + 1] == [a[0]] + a[1..][..k] && b[..k + 1] == [b[0]] + b[1..][..k];
        assert SmallerAt(a, b, k + 1);
      }
    }
  }

  lemma {:induction false} BeforeTransitive(a: string, b: string, c: string)
    requires Before(a, b) && Before(b, c)
    ensures Before(a, c)
  {
    if a != [] && a[0] == b[0] == c[0] {
      BeforeTransitive(a[1..], b[1..], c[1..]);
    }
  }

  predicate Ordered(s: seq<string>) { forall i, j :: 0 <= i < j < |s| ==> Before(s[i], s[j]) }

  // Puts a string in front of the first one that does not come before it.
  function Put(s: seq<string>, x: string): seq<string> {
    if s == [] || Before(x, s[0]) then [x] + s else [s[0]] + Put(s[1..], x)
  }

  lemma {:induction false} PutContents(s: seq<string>, x: string)
    ensures multiset(Put(s, x)) == multiset(s) + multiset{x}
  {
    if s != [] && !Before(x, s[0]) {
      PutContents(s[1..], x);
      assert s == [s[0]] + s[1..];
    }
  }

  lemma OrderedCons(x: string, s: seq<string>)
    requires Ordered(s) && forall y :: y in s ==> Before(x, y)
    ensures Ordered([x] + s)
  {
  }

  lemma {:induction false} PutOrdered(s: seq<string>, x: string)
    requires Ordered(s)
    ensures Ordered(Put(s, x))
  {
    if s == [] || Before(x, s[0]) {
      forall y | y in s ensures Before(x, y) {
        FirstIsLeast(s, y);
        BeforeTransitive(x, s[0], y);
      }
      OrderedCons(x, s);
    } else {
      PutOrdered(s[1..], x);
      PutContents(s[1..], x);
      BeforeTotal(x, s[0]);
      forall y | y in Put(s[1..], x) ensures Before(s[0], y) {
        assert y in multiset(Put(s[1..], x));
      }
      OrderedCons(s[0], Put(s[1..], x));
    }
  }

  function Sorted(s: seq<string>): (r: seq<string>)
    ensures Ordered(r) && multiset(r) == multiset(s)
  {
    if s == [] then []
    else
      var rest, x := Sorted(s[..|s| - 1]), s[|s| - 1];
      PutOrdered(rest, x);
      PutContents(rest, x);
      assert s == s[..|s| - 1] + [x];
      Put(rest, x)
  }

  // The first of an ordered sequence comes before everything in it.
  lemma FirstIsLeast(s: seq<string>, x: string)
    requires Ordered(s) && x in s
    ensures Before(s[0], x)
  {
    BeforeTotal(s[0], s[0]);
  }

  lemma TailContents(s: seq<string>)
    requires s != []
    ensures multiset(s[1..]) == multiset(s) - multiset{s[0]}
  {
    assert s == [s[0]] + s[1..];
  }

  lemma SameFirst(a: seq<string>, b: seq<string>)
    requires Ordered(a) && Ordered(b) && multiset(a) == multiset(b) && a != [] && b != []
    ensures a[0] == b[0]
  {
    assert a[0] in multiset(b) && b[0] in multiset(a);
    FirstIsLeast(a, b[0]);
    FirstIsLeast(b, a[0]);
    BeforeTotal(a[0], b[0]);
  }

  // One order per multiset.
  lemma {:induction false} OrderedUnique(a: seq<string>, b: seq<string>)
    requires Ordered(a) && Ordered(b) && multiset(a) == multiset(b)
    ensures a == b
  {
    assert |a| == |multiset(a)| && |b| == |multiset(b)|;
    if a != [] {
      SameFirst(a, b);
      TailContents(a);
      TailContents(b);
      OrderedUnique(a[1..], b[1..]);
      assert a == [a[0]] + a[1..] && b == [b[0]] + b[1..];
    }
  }

  // ---------------------------------------------------------------- joined digests

  function Joined(s: seq<string>): string { if s == [] then "" else Joined(s[..|s| - 1]) + s[|s| - 1] }

  predicate AllWide(s: seq<string>, width: nat) { forall h :: h in s ==> |h| == width }

  lemma OneMore(n: nat, width: nat)
    ensures (n + 1) * width == n * width + width
  {
  }

  lemma {:induction false} JoinedLength(s: seq<string>, width: nat)
    requires AllWide(s, width)
    ensures |Joined(s)| == |s| * width
  {
    if s != [] {
      JoinedLength(s[..|s| - 1], width);
      OneMore(|s| - 1, width);
    }
  }

  lemma SameLength(a: seq<string>, b: seq<string>, width: nat)
    requires 0 < width && AllWide(a, width) && AllWide(b, width) && Joined(a) == Joined(b)
    ensures |a| == |b|
  {
    JoinedLength(a, width);
    JoinedLength(b, width);
    Cancel(|a|, |b|, width);
  }

  lemma Cancel(x: nat, y: nat, width: nat)
    requires 0 < width && x * width == y * width
    ensures x == y
  {
  }

  lemma SplitAlike(x: string, y: string, u: string, v: string)
    requires x + u == y + v && |u| == |v|
    ensures x == y && u == v
  {
    assert |x| == |y|;
    assert (x + u)[..|x|] == x && (y + v)[..|y|] == y;
    assert (x + u)[|x|..] == u && (y + v)[|y|..] == v;
  }

  // Digests of one width can be read back from their concatenation.
  lemma {:induction false} JoinedInjective(a: seq<string>, b: seq<string>, width: nat)
    requires 0 < width && AllWide(a, width) && AllWide(b, width) && Joined(a) == Joined(b)
    ensures a == b
  {
    SameLength(a, b, width);
    if a != [] {
      var n := |a| - 1;
      SplitAlike(Joined(a[..n]), Joined(b[..n]), a[n], b[n]);
      JoinedInjective(a[..n], b[..n], width);
      assert a == a[..n] + [a[n]] && b == b[..n] + [b[n]];
    }
  }

  // ---------------------------------------------------------------- ids

  function Digests(legHash: Digest, legs: seq<Leg>): (r: seq<string>)
    ensures |r| == |legs| && forall i :: 0 <= i < |legs| ==> r[i] == legHash(legs[i])
  {
    seq(|legs|, i requires 0 <= i < |legs| => legHash(legs[i]))
  }

  function InstrumentId(legHash: Digest, sha: string -> string, legs: seq<Leg>): string {
    sha(Joined(Sorted(Digests(legHash, legs))))
  }

  method HashLegs(legHash: Digest, sha: string -> string, legs: seq<Leg>) returns (id: string)
    ensures id == InstrumentId(legHash, sha, legs)
  {
    var hashes: seq<string> := [];
    for i := 0 to |legs|
      invariant |hashes| == i && forall k :: 0 <= k < i ==> hashes[k] == legHash(legs[k])
    {
      hashes := hashes + [legHash(legs[i])];
    }
    assert hashes == Digests(legHash, legs);
    hashes := Sorted(hashes);
    var combined := "";
    for i := 0 to |hashes|
      invariant combined == Joined(hashes[..i])
    {
      assert hashes[..i + 1][..i] == hashes[..i];
      combined := combined + hashes[i];
    }
    assert hashes[..|hashes|] == hashes;
    id := sha(combined);
  }

  // The digests stand in the joined string one after the other.
  lemma {:induction false} JoinedParts(a: seq<string>, x: string, b: seq<string>)
    ensures Joined(a + [x] + b) == Joined(a) + x + Joined(b)
  {
    if b == [] {
      assert a + [x] + b == a + [x] && (a + [x])[..|a|] == a;
      assert Joined(a) + x + "" == Joined(a) + x;
    } else {
      var n := |b| - 1;
      JoinedParts(a, x, b[..n]);
      assert (a + [x] + b)[..|a| + 1 + n] == a + [x] + b[..n];
      assert (Joined(a) + x + Joined(b[..n])) + b[n] == Joined(a) + x + (Joined(b[..n]) + b[n]);
    }
  }

  // Legs whose digests are ascending have the id of their digests as they stand.
  lemma OrderedId(legHash: Digest, sha: string -> string, legs: seq<Leg>)
    requires Ordered(Digests(legHash, legs))
    ensures InstrumentId(legHash, sha, legs) == sha(Joined(Digests(legHash, legs)))
  {
    OrderedUnique(Sorted(Digests(legHash, legs)), Digests(legHash, legs));
  }

  // No two of these legs share a digest.
  predicate NoCollision(legHash: Digest, legs: seq<Leg>) {
    forall x, y :: x in legs && y in legs && legHash(x) == legHash(y) ==> x == y
  }

  lemma DigestsSnoc(legHash: Digest, legs: seq<Leg>)
    requires legs != []
    ensures var n := |legs| - 1; Digests(legHash, legs) == Digests(legHash, legs[..n]) + [legHash(legs[n])]
  {
  }

  // A leg occurs as often as its digest.
  lemma {:induction false} DigestCount(legHash: Digest, legs: seq<Leg>, leg: Leg)
    requires forall x :: x in legs && legHash(x) == legHash(leg) ==> x == leg
    ensures multiset(Digests(legHash, legs))[legHash(leg)] == multiset(legs)[leg]
  {
    if legs != [] {
      var n := |legs| - 1;
      DigestsSnoc(legHash, legs);
      DigestCount(legHash, legs[..n], leg);
      assert legs == legs[..n] + [legs[n]];
    }
  }

  lemma DigestsJoin(legHash: Digest, a: seq<Leg>, b: seq<Leg>)
    ensures Digests(legHash, a + b) == Digests(legHash, a) + Digests(legHash, b)
  {
  }

  // Taking one leg out takes its digest out.
  lemma TakeOut(legHash: Digest, legs: seq<Leg>, leg: Leg) returns (rest: seq<Leg>)
    requires leg in legs
    ensures |rest| == |legs| - 1 && multiset(legs) == multiset(rest) + multiset{leg}
    ensures multiset(Digests(legHash, legs)) == multiset(Digests(legHash, rest)) + multiset{legHash(leg)}
  {
    var k :| 0 <= k < |legs| && legs[k] == leg;
    rest := legs[..k] + legs[k + 1..];
    assert legs == legs[..k] + ([leg] + legs[k + 1..]);
    AroundContents(legs[..k], leg, legs[k + 1..]);
    DigestsAround(legHash, legs[..k], leg, legs[k + 1..]);
    AroundContents(Digests(legHash, legs[..k]), legHash(leg), Digests(legHash, legs[k + 1..]));
  }

  lemma AroundContents<T>(front: seq<T>, x: T, back: seq<T>)
    ensures multiset(front + ([x] + back)) == multiset(front + back) + multiset{x}
  {
  }

  lemma DigestsAround(legHash: Digest, front: seq<Leg>, leg: Leg, back: seq<Leg>)
    ensures Digests(legHash, front + ([leg] + back)) ==
      Digests(legHash, front) + ([legHash(leg)] + Digests(legHash, back))
    ensures Digests(legHash, front + back) == Digests(legHash, front) + Digests(legHash, back)
  {
    DigestsJoin(legHash, front, back);
    DigestsJoin(legHash, [leg], back);
    DigestsJoin(legHash, front, [leg] + back);
    assert Digests(legHash, [leg]) == [legHash(leg)];
  }

  lemma {:induction false} SameDigests(legHash: Digest, a: seq<Leg>, b: seq<Leg>)
    requires multiset(a) == multiset(b)
    ensures multiset(Digests(legHash, a)) == multiset(Digests(legHash, b))
    decreases |a|
  {
    if a == [] {
      assert b == [] by {
        assert |b| == |multiset(b)| == |multiset(a)| == 0;
      }
    } else {
      var leg := a[0];
      assert leg in multiset(b);
      var a' := TakeOut(legHash, a, leg);
      var b' := TakeOut(legHash, b, leg);
      assert multiset(a') == multiset(b') by {
        assert multiset(a') == multiset(a) - multiset{leg};
        assert multiset(b') == multiset(b) - multiset{leg};
      }
      SameDigests(legHash, a', b');
    }
  }

  // Two instruments have the same id if and only if they have the same legs, as often and in any
  // order, as long as the digests involved do not collide and have one width.
  lemma {:induction false} SameIdIff(legHash: Digest, sha: string -> string, width: nat, a: seq<Leg>, b: seq<Leg>)
    requires 0 < width && (forall leg :: leg in a + b ==> |legHash(leg)| == width) && NoCollision(legHash, a + b)
    requires var x, y := Joined(Sorted(Digests(legHash, a))), Joined(Sorted(Digests(legHash, b)));
      sha(x) == sha(y) ==> x == y
    ensures InstrumentId(legHash, sha, a) == InstrumentId(legHash, sha, b) <==> multiset(a) == multiset(b)
  {
    var da, db := Digests(legHash, a), Digests(legHash, b);
    if multiset(a) == multiset(b) {
      SameDigests(legHash, a, b);
      OrderedUnique(Sorted(da), Sorted(db));
    } else if sha(Joined(Sorted(da))) == sha(Joined(Sorted(db))) {
      SortedWide(da, width);
      SortedWide(db, width);
      JoinedInjective(Sorted(da), Sorted(db), width);
      forall leg ensures multiset(a)[leg] == multiset(b)[leg] {
        SameCount(legHash, a, b, leg);
      }
    }
  }

  lemma SortedWide(s: seq<string>, width: nat)
    requires AllWide(s, width)
    ensures AllWide(Sorted(s), width)
  {
    forall h | h in Sorted(s) ensures |h| == width {
      assert h in multiset(Sorted(s));
      assert h in multiset(s);
    }
  }

  lemma SameCount(legHash: Digest, a: seq<Leg>, b: seq<Leg>, leg: Leg)
    requires NoCollision(legHash, a + b) && multiset(Digests(legHash, a)) == multiset(Digests(legHash, b))
    ensures multiset(a)[leg] == multiset(b)[leg]
  {
    if leg in a + b {
      DigestCount(legHash, a, leg);
      DigestCount(legHash, b, leg);
    }
  }
}
