// The contributions of a route (route_official_hidden,
// converter/k3x_converter/official_moe.py) against what the replay and the
// closure tool demand of them.
//
// Scores are positive reals: the router applies a sigmoid to them.

module RouteWeights {
  import Manifest
  import Routing
  import opened TwoLayer
  import opened TwoLayerTrace
  import opened Wrappers

  /** Keeps the denominator away from zero: 1.0e-20. */
  const EPSILON: real := 1.0 / 100_000_000_000_000_000_000.0

  function Picked(scores: seq<real>, ids: seq<int>): (r: seq<real>)
    requires forall i :: 0 <= i < |ids| ==> 0 <= ids[i] < |scores|
    ensures |r| == |ids| && forall i :: 0 <= i < |ids| ==> r[i] == scores[ids[i]]
  {
    seq(|ids|, i requires 0 <= i < |ids| => scores[ids[i]])
  }

  function Scaled(xs: seq<real>, d: real): (r: seq<real>)
    requires d > 0.0
    ensures |r| == |xs| && forall i :: 0 <= i < |xs| ==> r[i] == xs[i] / d
  {
    seq(|xs|, i requires 0 <= i < |xs| => xs[i] / d)
  }

  predicate Positive(xs: seq<real>) {
    forall i :: 0 <= i < |xs| ==> xs[i] > 0.0
  }

  lemma {:induction false} SumPositive(xs: seq<real>)
    requires Positive(xs)
    ensures Sum(xs) >= 0.0 && (xs != [] ==> Sum(xs) > 0.0)
  {
    if xs != [] {
      SumPositive(xs[..|xs| - 1]);
    }
  }

  lemma {:induction false} SumScaled(xs: seq<real>, d: real)
    requires d > 0.0
    ensures Sum(Scaled(xs, d)) == Sum(xs) / d
  {
    if xs != [] {
      var init := xs[..|xs| - 1];
      SumScaled(init, d);
      assert Scaled(xs, d)[..|xs| - 1] == Scaled(init, d);
      assert Sum(xs) / d == Sum(init) / d + xs[|xs| - 1] / d;
    }
  }

  /** The route of the router: the canonical ids and their normalised scores. */
  function RouteOf(scores: seq<real>, canonical: seq<int>): Route
    requires Positive(scores) && forall i :: 0 <= i < |canonical| ==> 0 <= canonical[i] < |scores|
  {
    var weights := Picked(scores, canonical);
    SumPositive(weights);
    Route(canonical, Scaled(weights, Sum(weights) + EPSILON))
  }

  lemma Quotients(x: real, d: real)
    requires d > 0.0
    ensures x > 0.0 ==> x / d > 0.0
    ensures x / d * d == x
  {
  }

  lemma {:induction false} QuotientOrder(x: real, y: real, d: real)
    requires d > 0.0
    ensures x > y <==> x / d > y / d
  {
    Quotients(x, d);
    Quotients(y, d);
    Quotients(x - y, d);
    Quotients(y - x, d);
    assert (x - y) / d == x / d - y / d;
    assert (y - x) / d == y / d - x / d;
  }

  /** Entry i of a route belongs to expert i: it is that expert's own score over the common
      denominator, and of two experts the one with the larger score contributes more. */
  lemma {:induction false} ContributionOfExpert(scores: seq<real>, canonical: seq<int>, i: nat)
    requires Positive(scores) && forall k :: 0 <= k < |canonical| ==> 0 <= canonical[k] < |scores|
    requires i < |canonical|
    ensures var route := RouteOf(scores, canonical);
            && |route.experts| == |route.contributions| == |canonical| && route.experts[i] == canonical[i]
            && route.contributions[i] * (Sum(Picked(scores, canonical)) + EPSILON) == scores[route.experts[i]]
            && route.contributions[i] > 0.0
            && forall j :: 0 <= j < |canonical| ==>
                 (scores[route.experts[i]] > scores[route.experts[j]] <==> route.contributions[i] > route.contributions[j])
  {
    hide Sum;
    var weights := Picked(scores, canonical);
    SumPositive(weights);
    var d, route := Sum(weights) + EPSILON, RouteOf(scores, canonical);
    assert route.contributions[i] == weights[i] / d && weights[i] == scores[canonical[i]];
    Quotients(weights[i], d);
    forall j | 0 <= j < |canonical|
      ensures scores[canonical[i]] > scores[canonical[j]] <==> route.contributions[i] > route.contributions[j]
    {
      assert route.contributions[j] == weights[j] / d && weights[j] == scores[canonical[j]];
      QuotientOrder(weights[i], weights[j], d);
    }
  }

  lemma {:induction false} Remainder(total: real, e: real)
    requires total + e > 0.0
    ensures (1.0 - total / (total + e)) * (total + e) == e
  {
    var d := total + e;
    Quotients(total, d);
    assert (1.0 - total / d) * d == d - total / d * d;
  }

  /** How far the contributions are from one: by exactly epsilon over the denominator. */
  lemma {:induction false} Shortfall(scores: seq<real>, canonical: seq<int>)
    requires Positive(scores) && forall i :: 0 <= i < |canonical| ==> 0 <= canonical[i] < |scores|
    ensures var d := Sum(Picked(scores, canonical)) + EPSILON;
            d > 0.0 && (1.0 - Sum(RouteOf(scores, canonical).contributions)) * d == EPSILON
  {
    hide Sum;
    var weights := Picked(scores, canonical);
    SumPositive(weights);
    SumScaled(weights, Sum(weights) + EPSILON);
    Remainder(Sum(weights), EPSILON);
  }

  lemma {:induction false} CloseToOne(s: real, d: real, e: real, tolerance: real)
    requires d > 0.0 && tolerance > 0.0 && e > 0.0 && (1.0 - s) * d == e
    ensures IsClose(s, 1.0, tolerance) <==> e <= tolerance * d
  {
    var gap := 1.0 - s;
    if gap <= 0.0 {
      assert gap * d <= 0.0;
    } else if gap <= tolerance {
      assert (tolerance - gap) * d >= 0.0;
    } else {
      assert (gap - tolerance) * d > 0.0;
    }
  }

  /** The route is one the replay accepts exactly when the selected scores do not all but
      vanish; it always has strictly positive contributions, so with sixteen experts the
      closure tool accepts it as well. */
  lemma {:induction false} RouteIsValid(scores: seq<real>, adjusted: Routing.Scores, selected: seq<Routing.Expert>, ids: seq<int>)
    requires Positive(scores) && |scores| == |adjusted| == EXPERTS && selected != []
    requires Routing.TopK(adjusted, |selected|, selected)
    requires |ids| == |selected| && forall i :: 0 <= i < |ids| ==> ids[i] == Routing.Canonical(adjusted, selected)[i]
    ensures forall i :: 0 <= i < |ids| ==> 0 <= ids[i] < |scores|
    ensures var route := RouteOf(scores, ids);
            && (ValidRoute(route) <==> EPSILON <= 0.000001 * (Sum(Picked(scores, ids)) + EPSILON))
            && (Manifest.FullRoute(route) <==> |selected| == Manifest.TOP_K)
  {
    hide Sum, IsClose, Routing.TopK;
    assert Routing.InRange(selected, adjusted) && Distinct(selected) by { TopKParts(adjusted, selected); }
    Routing.CanonicalOrder(adjusted, selected);
    CanonicalDistinct(adjusted, Routing.Canonical(adjusted, selected));
    var weights := Picked(scores, ids);
    Shortfall(scores, ids);
    var d, route := Sum(weights) + EPSILON, RouteOf(scores, ids);
    forall i | 0 <= i < |ids| ensures route.contributions[i] > 0.0 {
      assert weights[i] == scores[ids[i]];
      Quotients(weights[i], d);
    }
    CloseToOne(Sum(route.contributions), d, EPSILON, 0.000001);
  }

  lemma TopKParts(adjusted: Routing.Scores, selected: seq<Routing.Expert>)
    requires Routing.TopK(adjusted, |selected|, selected)
    ensures Routing.InRange(selected, adjusted) && Distinct(selected)
  {
  }

  /** A strictly ordered list has no duplicates. */
  lemma {:induction false} CanonicalDistinct(adjusted: Routing.Scores, s: seq<Routing.Expert>)
    requires Routing.InRange(s, adjusted) && Routing.Ordered(adjusted, s)
    ensures Distinct(s)
  {
    forall i, j | 0 <= i < j < |s| ensures s[i] != s[j] {
      assert Routing.Before(adjusted, s[i], s[j]);
    }
  }

  /** Scores that all but vanish: the one expert's contribution is too far from one. */
  lemma {:induction false} VanishingScores()
    ensures var scores := seq(EXPERTS, _ => EPSILON);
            Positive(scores) && !ValidRoute(RouteOf(scores, [0]))
  {
    var scores := seq(EXPERTS, _ => EPSILON);
    var ids := [0];
    assert Picked(scores, ids) == [EPSILON];
    assert Picked(scores, ids)[..0] == [];
    assert Sum(Picked(scores, ids)) == EPSILON;
    Shortfall(scores, ids);
    CloseToOne(Sum(RouteOf(scores, ids).contributions), EPSILON + EPSILON, EPSILON, 0.000001);
  }
}
