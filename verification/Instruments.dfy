/** Instruments and the checks across their legs (registry/internal/validate.go). */
module Instruments {

  datatype Outcome = OutcomeUnspecified | HomeWin | HomeLoss | Draw

  datatype Comparator = CmpUnspecified | GT | GTE | LT | LTE | EQ

  // What a leg predicts.  A prop type is its enum number, 0 being unspecified.
  datatype Predicate =
    | GameOutcome(outcome: Outcome)
    | PlayerProp(player: string, prop: nat, comparator: Comparator, threshold: int)
    | NoPredicate

  datatype Leg = Leg(game: string, claim: Predicate)

  // The digest of a leg.
  type Digest = Leg -> string

  // ---------------------------------------------------------------- single legs

  predicate WellPosed(leg: Leg) {
    && leg.game != ""
    && match leg.claim
       case GameOutcome(outcome) => outcome != OutcomeUnspecified
       case PlayerProp(player, prop, cmp, threshold) =>
         && player != "" && prop != 0 && cmp != CmpUnspecified && threshold >= 0
         && !(cmp == GTE && threshold == 0) && !(cmp == LT && threshold == 0)
       case NoPredicate => false
  }

  method ValidateStructural(legs: seq<Leg>) returns (ok: bool)
    ensures ok <==> legs != [] && forall leg :: leg in legs ==> WellPosed(leg)
  {
    if |legs| == 0 {
      return false;
    }
    for i := 0 to |legs|
      invariant forall k :: 0 <= k < i ==> WellPosed(legs[k])
    {
      var leg := legs[i];
      assert leg in legs;
      if leg.game == "" {
        return false;
      }
      match leg.claim
      case GameOutcome(outcome) =>
        if outcome == OutcomeUnspecified {
          return false;
        }
      case PlayerProp(player, prop, cmp, threshold) =>
        if player == "" || prop == 0 || cmp == CmpUnspecified || threshold < 0 {
          return false;
        }
        if (cmp == GTE && threshold == 0) || (cmp == LT && threshold == 0) {
          return false;
        }
      case NoPredicate =>
        return false;
    }
    return true;
  }

  // ---------------------------------------------------------------- pairs of legs

  // The player's statistic a prop leg is about.
  datatype PropKey = PropKey(game: string, player: string, prop: nat)

  predicate About(leg: Leg, key: PropKey) {
    leg.game == key.game && leg.claim.PlayerProp? && leg.claim.player == key.player && leg.claim.prop == key.prop
  }

  // Opposite comparators at one threshold, or two different exact values.
  predicate Contradict(a: Predicate, b: Predicate) {
    a.PlayerProp? && b.PlayerProp? &&
    (|| (a.threshold == b.threshold &&
          (a.comparator, b.comparator) in {(GT, LTE), (LTE, GT), (GTE, LT), (LT, GTE)})
     || (a.comparator == EQ && b.comparator == EQ && a.threshold != b.threshold))
  }

  predicate SameStat(a: Leg, b: Leg) {
    && a.claim.PlayerProp? && b.claim.PlayerProp?
    && a.game == b.game && a.claim.player == b.claim.player && a.claim.prop == b.claim.prop
  }

  // Two legs that may not stand in one instrument.
  predicate Clash(hash: Digest, a: Leg, b: Leg) {
    || hash(a) == hash(b)
    || (a.game == b.game && a.claim.GameOutcome? && b.claim.GameOutcome?)
    || (SameStat(a, b) && Contradict(a.claim, b.claim))
  }

  predicate Clashing(hash: Digest, legs: seq<Leg>) {
    exists i, j :: 0 <= i < j < |legs| && Clash(hash, legs[i], legs[j])
  }

  method CheckPropContradiction(pps: seq<Predicate>) returns (ok: bool)
    requires forall p :: p in pps ==> p.PlayerProp?
    ensures ok <==> forall a, b :: a in pps && b in pps ==> !Contradict(a, b)
  {
    var i := 0;
    while i < |pps|
      invariant i <= |pps|
      invariant forall k, l :: 0 <= k < i && 0 <= l < |pps| ==> !Contradict(pps[k], pps[l])
    {
      var j := i + 1;
      while j < |pps|
        invariant i < j <= |pps|
        invariant forall l :: i <= l < j ==> !Contradict(pps[i], pps[l])
      {
        var a, b := pps[i], pps[j];
        assert a in pps && b in pps;
        if (a.comparator == GT && b.comparator == LTE && a.threshold == b.threshold) ||
           (a.comparator == LTE && b.comparator == GT && a.threshold == b.threshold) ||
           (a.comparator == GTE && b.comparator == LT && a.threshold == b.threshold) ||
           (a.comparator == LT && b.comparator == GTE && a.threshold == b.threshold)
        {
          return false;
        }
        if a.comparator == EQ && b.comparator == EQ && a.threshold != b.threshold {
          return false;
        }
        j := j + 1;
      }
      i := i + 1;
    }
    return true;
  }

  // The prop legs about one statistic, in order.
  function PropsOf(legs: seq<Leg>, key: PropKey): (pps: seq<Predicate>)
    ensures forall p :: p in pps <==> About(Leg(key.game, p), key) && Leg(key.game, p) in legs
  {
    if legs == [] then []
    else
      var rest, leg := PropsOf(legs[..|legs| - 1], key), legs[|legs| - 1];
      assert legs == legs[..|legs| - 1] + [leg];
      if About(leg, key) then rest + [leg.claim] else rest
  }

  function Get(props: map<PropKey, seq<Predicate>>, key: PropKey): seq<Predicate> {
    if key in props then props[key] else []
  }

  // The pair loop over one statistic finds a contradiction exactly when two legs have one.
  lemma ContradictionIsClash(hash: Digest, legs: seq<Leg>, key: PropKey, a: Predicate, b: Predicate)
    requires a in PropsOf(legs, key) && b in PropsOf(legs, key) && Contradict(a, b)
    ensures Clashing(hash, legs)
  {
    var i :| 0 <= i < |legs| && legs[i] == Leg(key.game, a);
    var j :| 0 <= j < |legs| && legs[j] == Leg(key.game, b);
    assert Clash(hash, legs[i], legs[j]) && Clash(hash, legs[j], legs[i]);
  }

  // Each leg so far, checked against the earlier ones.
  predicate Separate(hash: Digest, a: Leg, b: Leg) {
    hash(a) != hash(b) && !(a.game == b.game && a.claim.GameOutcome? && b.claim.GameOutcome?)
  }

  // Groups the prop legs by statistic, refusing repeated legs and second outcomes of a game.
  method CollectProps(hash: Digest, legs: seq<Leg>) returns (ok: bool, props: map<PropKey, seq<Predicate>>)
    ensures ok <==> forall i, j :: 0 <= i < j < |legs| ==> Separate(hash, legs[i], legs[j])
    ensures ok ==> forall key :: Get(props, key) == PropsOf(legs, key)
  {
    var seen: set<string>, games: set<string> := {}, {};
    props := map[];
    var i := 0;
    while i < |legs|
      invariant i <= |legs|
      invariant seen == set k | 0 <= k < i :: hash(legs[k])
      invariant games == set k | 0 <= k < i && legs[k].claim.GameOutcome? :: legs[k].game
      invariant forall k, l :: 0 <= k < l < i ==> Separate(hash, legs[k], legs[l])
      invariant forall key :: Get(props, key) == PropsOf(legs[..i], key)
    {
      var leg := legs[i];
      var h := hash(leg);
      if h in seen {
        return false, props;
      }
      seen := seen + {h};
      assert legs[..i + 1][..i] == legs[..i] && legs[..i + 1][i] == leg;
      match leg.claim {
        case GameOutcome(_) =>
          if leg.game in games {
            return false, props;
          }
          games := games + {leg.game};
        case PlayerProp(player, prop, _, _) =>
          var key := PropKey(leg.game, player, prop);
          props := props[key := Get(props, key) + [leg.claim]];
        case NoPredicate =>
      }
      i := i + 1;
    }
    assert legs[..i] == legs;
    return true, props;
  }

  // An instrument is accepted exactly when no two of its legs clash.
  method ValidateCrossLeg(hash: Digest, legs: seq<Leg>) returns (ok: bool)
    ensures ok <==> !Clashing(hash, legs)
  {
    var separate, props := CollectProps(hash, legs);
    if !separate {
      ghost var i, j :| 0 <= i < j < |legs| && !Separate(hash, legs[i], legs[j]);
      assert Clash(hash, legs[i], legs[j]);
      return false;
    }
    var todo := props.Keys;
    while todo != {}
      invariant todo <= props.Keys
      invariant forall key, a, b :: key in props.Keys - todo && a in props[key] && b in props[key] ==> !Contradict(a, b)
      decreases todo
    {
      var key :| key in todo;
      var pps := props[key];
      assert pps == Get(props, key) == PropsOf(legs, key);
      if |pps| >= 2 {
        ok := CheckPropContradiction(pps);
        if !ok {
          ghost var a, b :| a in pps && b in pps && Contradict(a, b);
          ContradictionIsClash(hash, legs, key, a, b);
          return;
        }
      }
      todo := todo - {key};
    }
    forall i, j | 0 <= i < j < |legs| ensures !Clash(hash, legs[i], legs[j]) {
      assert Separate(hash, legs[i], legs[j]);
      if SameStat(legs[i], legs[j]) {
        var a, b := legs[i].claim, legs[j].claim;
        var key := PropKey(legs[i].game, a.player, a.prop);
        assert a in PropsOf(legs, key) && b in PropsOf(legs, key);
        assert Get(props, key) == PropsOf(legs, key);
      }
    }
    ok := true;
  }
}
