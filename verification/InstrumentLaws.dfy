/** What the verdict on an instrument means for the results that could make all its legs true. */
module InstrumentLaws {
  import opened Instruments

  // ---------------------------------------------------------------- order does not matter

  lemma ClashSymmetric(hash: Digest, a: Leg, b: Leg)
    ensures Clash(hash, a, b) <==> Clash(hash, b, a)
  {
  }

  // A leg that occurs twice has two places.
  lemma {:induction false} TwoPlaces(legs: seq<Leg>, leg: Leg) returns (i: nat, j: nat)
    requires multiset(legs)[leg] >= 2
    ensures i < j < |legs| && legs[i] == legs[j] == leg
  {
    var n := |legs| - 1;
    assert legs == legs[..n] + [legs[n]];
    if legs[n] == leg {
      assert leg in multiset(legs[..n]);
      i, j :| 0 <= i < n && legs[i] == leg && j == n;
    } else {
      i, j := TwoPlaces(legs[..n], leg);
    }
  }

  lemma SamePlaceTwice(legs: seq<Leg>, i: nat, j: nat)
    requires i < j < |legs| && legs[i] == legs[j]
    ensures multiset(legs)[legs[i]] >= 2
  {
    assert legs == legs[..j] + [legs[j]] + legs[j + 1..];
    assert legs[..j][i] == legs[i];
  }

  lemma ClashMoves(hash: Digest, legs: seq<Leg>, legs': seq<Leg>)
    requires multiset(legs) == multiset(legs') && Clashing(hash, legs)
    ensures Clashing(hash, legs')
  {
    var i, j :| 0 <= i < j < |legs| && Clash(hash, legs[i], legs[j]);
    var a, b := legs[i], legs[j];
    if a == b {
      SamePlaceTwice(legs, i, j);
      var i', j' := TwoPlaces(legs', a);
    } else {
      assert a in multiset(legs') && b in multiset(legs');
      var i', j' :| 0 <= i' < |legs'| && 0 <= j' < |legs'| && legs'[i'] == a && legs'[j'] == b;
      ClashSymmetric(hash, a, b);
      assert i' != j';
    }
  }

  // The verdict is the same in whatever order the legs are given.
  lemma VerdictIsOrderFree(hash: Digest, legs: seq<Leg>, legs': seq<Leg>)
    requires multiset(legs) == multiset(legs')
    ensures Clashing(hash, legs) <==> Clashing(hash, legs')
  {
    if Clashing(hash, legs) {
      ClashMoves(hash, legs, legs');
    }
    if Clashing(hash, legs') {
      ClashMoves(hash, legs', legs);
    }
  }

  // ---------------------------------------------------------------- what legs mean

  // How every game ended, and every player's statistics, which are never negative.
  datatype Results = Results(outcome: string -> Outcome, stat: PropKey -> nat)

  predicate Meets(claim: Predicate, x: int)
    requires claim.PlayerProp?
  {
    match claim.comparator
    case GT => x > claim.threshold
    case GTE => x >= claim.threshold
    case LT => x < claim.threshold
    case LTE => x <= claim.threshold
    case EQ => x == claim.threshold
    case CmpUnspecified => false
  }

  predicate Holds(leg: Leg, results: Results) {
    match leg.claim
    case GameOutcome(outcome) => results.outcome(leg.game) == outcome
    case PlayerProp(player, prop, _, _) => Meets(leg.claim, results.stat(PropKey(leg.game, player, prop)))
    case NoPredicate => false
  }

  predicate AllHold(legs: seq<Leg>, results: Results) { forall leg :: leg in legs ==> Holds(leg, results) }

  // Rejected legs whose digests differ cannot all come true.
  lemma RejectionIsSound(hash: Digest, legs: seq<Leg>, results: Results)
    requires Clashing(hash, legs) && forall i, j :: 0 <= i < j < |legs| ==> hash(legs[i]) != hash(legs[j])
    ensures !AllHold(legs, results)
  {
    var i, j :| 0 <= i < j < |legs| && Clash(hash, legs[i], legs[j]);
    var a, b := legs[i], legs[j];
    assert hash(a) != hash(b) && a in legs && b in legs;
    if a.claim.GameOutcome? && b.claim.GameOutcome? {
      assert a.claim.outcome == b.claim.outcome ==> a == b;
    }
  }

  // ---------------------------------------------------------------- what is rejected, said of values

  predicate Specified(claim: Predicate) { claim.PlayerProp? && !claim.comparator.CmpUnspecified? }

  // Every value meets exactly one of the two claims.
  ghost predicate Complementary(a: Predicate, b: Predicate)
    requires a.PlayerProp? && b.PlayerProp?
  {
    forall x: int :: Meets(a, x) <==> !Meets(b, x)
  }

  // Just one value meets the claim.
  ghost predicate MeetsOnly(claim: Predicate, x: int)
    requires claim.PlayerProp?
  {
    forall y: int :: Meets(claim, y) <==> y == x
  }

  // Two claims that rule each other out: opposite sides of one threshold, or two different values.
  ghost predicate Opposed(a: Predicate, b: Predicate)
    requires a.PlayerProp? && b.PlayerProp?
  {
    || (a.threshold == b.threshold && Complementary(a, b))
    || (exists x, y :: MeetsOnly(a, x) && MeetsOnly(b, y) && x != y)
  }

  // Only an exact claim is met by a single value.
  lemma OnlyExact(claim: Predicate, x: int)
    requires Specified(claim)
    ensures MeetsOnly(claim, x) <==> claim.comparator.EQ? && claim.threshold == x
  {
    var t := claim.threshold;
    if MeetsOnly(claim, x) {
      assert Meets(claim, x) && !Meets(claim, x - 1) && !Meets(claim, x + 1);
      assert Meets(claim, t + 1) <==> t + 1 == x;
      assert Meets(claim, t + 2) <==> t + 2 == x;
      assert Meets(claim, t - 1) <==> t - 1 == x;
      assert Meets(claim, t - 2) <==> t - 2 == x;
    }
  }

  lemma ComplementIff(a: Predicate, b: Predicate)
    requires Specified(a) && Specified(b) && a.threshold == b.threshold
    ensures Complementary(a, b) <==>
      (a.comparator, b.comparator) in {(GT, LTE), (LTE, GT), (GTE, LT), (LT, GTE)}
  {
    var t := a.threshold;
    if Complementary(a, b) {
      assert Meets(a, t) <==> !Meets(b, t);
      assert Meets(a, t + 1) <==> !Meets(b, t + 1);
      assert Meets(a, t - 1) <==> !Meets(b, t - 1);
    }
  }

  // The pairs the check rejects are exactly the opposed ones.
  lemma ContradictIff(a: Predicate, b: Predicate)
    requires Specified(a) && Specified(b)
    ensures Contradict(a, b) <==> Opposed(a, b)
  {
    if a.threshold == b.threshold {
      ComplementIff(a, b);
    }
    OnlyExact(a, a.threshold);
    OnlyExact(b, b.threshold);
    forall x, y | MeetsOnly(a, x) && MeetsOnly(b, y) ensures x == a.threshold && y == b.threshold {
      OnlyExact(a, x);
      OnlyExact(b, y);
    }
  }

  // Two legs that may not stand together, said of digests, games and values.
  ghost predicate Incompatible(hash: Digest, a: Leg, b: Leg) {
    || hash(a) == hash(b)
    || (a.game == b.game && a.claim.GameOutcome? && b.claim.GameOutcome?)
    || (SameStat(a, b) && Opposed(a.claim, b.claim))
  }

  lemma ClashIff(hash: Digest, a: Leg, b: Leg)
    requires (a.claim.PlayerProp? ==> Specified(a.claim)) && (b.claim.PlayerProp? ==> Specified(b.claim))
    ensures Clash(hash, a, b) <==> Incompatible(hash, a, b)
  {
    if SameStat(a, b) {
      ContradictIff(a.claim, b.claim);
    }
  }

  // An instrument of well-posed legs is rejected if and only if some two of them are incompatible.
  lemma RejectedIff(hash: Digest, legs: seq<Leg>)
    requires forall leg :: leg in legs ==> WellPosed(leg)
    ensures Clashing(hash, legs) <==> exists i, j :: 0 <= i < j < |legs| && Incompatible(hash, legs[i], legs[j])
  {
    forall i, j | 0 <= i < j < |legs| ensures Clash(hash, legs[i], legs[j]) <==> Incompatible(hash, legs[i], legs[j]) {
      assert legs[i] in legs && legs[j] in legs;
      ClashIff(hash, legs[i], legs[j]);
    }
  }

  // In particular a leg may not be given twice.
  lemma RepeatedLegRejected(hash: Digest, legs: seq<Leg>, i: int, j: int)
    requires 0 <= i < j < |legs| && legs[i] == legs[j]
    ensures Clashing(hash, legs)
  {
    assert Clash(hash, legs[i], legs[j]);
  }

  // Results of games that were played.
  ghost predicate Played(results: Results) { forall game :: results.outcome(game) != OutcomeUnspecified }

  // The leg can come true and can fail.
  ghost predicate Open(leg: Leg) {
    && (exists results :: Played(results) && Holds(leg, results))
    && (exists results :: Played(results) && !Holds(leg, results))
  }

  // A leg names what it is about, and asks for no negative statistic.
  predicate Complete(leg: Leg) {
    && leg.game != ""
    && (leg.claim.PlayerProp? ==> leg.claim.player != "" && leg.claim.prop != 0 && leg.claim.threshold >= 0)
  }

  function AllEnd(outcome: Outcome, x: nat): Results { Results(_ => outcome, _ => x) }

  lemma CanEnd(leg: Leg, outcome: Outcome, x: nat)
    requires outcome != OutcomeUnspecified
    ensures Played(AllEnd(outcome, x))
    ensures leg.claim.GameOutcome? ==> (Holds(leg, AllEnd(outcome, x)) <==> leg.claim.outcome == outcome)
    ensures leg.claim.PlayerProp? ==> (Holds(leg, AllEnd(outcome, x)) <==> Meets(leg.claim, x))
  {
  }

  lemma OutcomePosedIff(leg: Leg)
    requires Complete(leg) && leg.claim.GameOutcome?
    ensures WellPosed(leg) <==> Open(leg)
  {
    CanEnd(leg, HomeWin, 0);
    CanEnd(leg, HomeLoss, 0);
    CanEnd(leg, Draw, 0);
  }

  lemma PropPosedIff(leg: Leg)
    requires Complete(leg) && leg.claim.PlayerProp?
    ensures WellPosed(leg) <==> Open(leg)
  {
    var t := leg.claim.threshold;
    CanEnd(leg, Draw, 0);
    CanEnd(leg, Draw, t);
    CanEnd(leg, Draw, t + 1);
  }

  // A leg is accepted by itself if and only if it is complete and can come true and can fail.
  lemma WellPosedIff(leg: Leg)
    ensures WellPosed(leg) <==> Complete(leg) && Open(leg)
  {
    if Complete(leg) && leg.claim.GameOutcome? {
      OutcomePosedIff(leg);
    } else if Complete(leg) && leg.claim.PlayerProp? {
      PropPosedIff(leg);
    }
  }

  // ---------------------------------------------------------------- what acceptance leaves open

  // The least and the greatest value that meets a claim about a statistic.
  function Least(claim: Predicate): int
    requires claim.PlayerProp?
  {
    match claim.comparator
    case GT => claim.threshold + 1
    case GTE => claim.threshold
    case EQ => claim.threshold
    case _ => 0
  }

  predicate Capped(claim: Predicate) {
    claim.PlayerProp? && (claim.comparator.LT? || claim.comparator.LTE? || claim.comparator.EQ?)
  }

  function Greatest(claim: Predicate): int
    requires Capped(claim)
  {
    if claim.comparator.LT? then claim.threshold - 1 else claim.threshold
  }

  // Two claims about one statistic that no value meets.
  predicate Apart(a: Leg, b: Leg) { SameStat(a, b) && Capped(b.claim) && Greatest(b.claim) < Least(a.claim) }

  predicate SomeApart(legs: seq<Leg>) { exists a, b :: a in legs && b in legs && Apart(a, b) }

  lemma MeetsIff(leg: Leg, x: nat)
    requires WellPosed(leg) && leg.claim.PlayerProp?
    ensures Meets(leg.claim, x) <==> Least(leg.claim) <= x && (Capped(leg.claim) ==> x <= Greatest(leg.claim))
  {
  }

  // The greatest of the least values.
  function Highest(pps: seq<Predicate>): (x: nat)
    requires forall p :: p in pps ==> p.PlayerProp?
    ensures forall p :: p in pps ==> Least(p) <= x
    ensures x == 0 || exists p :: p in pps && Least(p) == x
  {
    if pps == [] then 0
    else
      var rest, p := Highest(pps[..|pps| - 1]), pps[|pps| - 1];
      assert pps == pps[..|pps| - 1] + [p];
      if Least(p) > rest then Least(p) else rest
  }

  ghost function OutcomeOf(legs: seq<Leg>, game: string): Outcome {
    if i :| 0 <= i < |legs| && legs[i].game == game && legs[i].claim.GameOutcome? then legs[i].claim.outcome else Draw
  }

  // Results that fit accepted legs as far as any can.
  ghost function BestResults(legs: seq<Leg>): Results {
    Results(game => OutcomeOf(legs, game), key => Highest(PropsOf(legs, key)))
  }

  lemma OutcomeHolds(hash: Digest, legs: seq<Leg>, leg: Leg)
    requires !Clashing(hash, legs) && leg in legs && leg.claim.GameOutcome?
    ensures Holds(leg, BestResults(legs))
  {
    var k :| 0 <= k < |legs| && legs[k] == leg;
    var i :| 0 <= i < |legs| && legs[i].game == leg.game && legs[i].claim.GameOutcome? &&
      OutcomeOf(legs, leg.game) == legs[i].claim.outcome;
    if i != k {
      assert Clash(hash, legs[i], legs[k]) && Clash(hash, legs[k], legs[i]);
    }
  }

  lemma PropHolds(legs: seq<Leg>, leg: Leg)
    requires !SomeApart(legs) && leg in legs && leg.claim.PlayerProp? && WellPosed(leg)
    ensures Holds(leg, BestResults(legs))
  {
    var key := PropKey(leg.game, leg.claim.player, leg.claim.prop);
    var pps := PropsOf(legs, key);
    var x := Highest(pps);
    assert leg.claim in pps;
    if Capped(leg.claim) && x != 0 {
      var p :| p in pps && Least(p) == x;
      assert !Apart(Leg(key.game, p), leg);
    }
    MeetsIff(leg, x);
  }

  // Accepted legs can all come true if and only if no two of them are apart, so the check misses
  // exactly the instruments with claims like "more than 5" beside "less than 3".
  lemma AcceptedPossibleIff(hash: Digest, legs: seq<Leg>)
    requires (forall leg :: leg in legs ==> WellPosed(leg)) && !Clashing(hash, legs)
    ensures (exists results :: AllHold(legs, results)) <==> !SomeApart(legs)
  {
    if !SomeApart(legs) {
      forall leg | leg in legs ensures Holds(leg, BestResults(legs)) {
        if leg.claim.GameOutcome? {
          OutcomeHolds(hash, legs, leg);
        } else {
          PropHolds(legs, leg);
        }
      }
      assert AllHold(legs, BestResults(legs));
    } else {
      var a, b :| a in legs && b in legs && Apart(a, b);
      forall results ensures !AllHold(legs, results) {
        var x := results.stat(PropKey(a.game, a.claim.player, a.claim.prop));
        MeetsIff(a, x);
        MeetsIff(b, x);
      }
    }
  }

  // Such an instrument, accepted although it can never pay.
  lemma AcceptedThoughImpossible(hash: Digest, game: string, player: string, prop: nat)
    requires hash(Leg(game, PlayerProp(player, prop, GT, 5))) != hash(Leg(game, PlayerProp(player, prop, LT, 3)))
    ensures var legs := [Leg(game, PlayerProp(player, prop, GT, 5)), Leg(game, PlayerProp(player, prop, LT, 3))];
      !Clashing(hash, legs) && forall results :: !AllHold(legs, results)
  {
    var a, b := Leg(game, PlayerProp(player, prop, GT, 5)), Leg(game, PlayerProp(player, prop, LT, 3));
    forall results ensures !AllHold([a, b], results) {
      assert a in [a, b] && b in [a, b];
    }
  }
}
