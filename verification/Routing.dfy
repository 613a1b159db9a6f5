// Canonical expert routing (route_official_hidden,
// converter/k3x_converter/official_moe.py).
//
// Scores are reals.  The top-k primitive may answer in any order and may break
// ties in any way; the router sorts its answer.

module Routing {
  import opened Wrappers

  type Expert = nat
  type Scores = seq<real>

  predicate InRange(selected: seq<Expert>, adjusted: Scores) {
    forall i :: 0 <= i < |selected| ==> selected[i] < |adjusted|
  }

  /** A valid answer of an unsorted top-k. */
  ghost predicate TopK(adjusted: Scores, k: nat, selected: seq<Expert>) {
    && |selected| == k && Distinct(selected) && InRange(selected, adjusted)
    && forall i, j :: 0 <= i < |selected| && 0 <= j < |adjusted| && j !in selected ==> adjusted[selected[i]] >= adjusted[j]
  }

  /** No unselected expert equals a selected one: the boundary is not tied. */
  ghost predicate Untied(adjusted: Scores, selected: seq<Expert>)
    requires InRange(selected, adjusted)
  {
    forall i, j :: 0 <= i < |selected| && 0 <= j < |adjusted| && j !in selected ==> adjusted[selected[i]] != adjusted[j]
  }

  /** The sort key (-adjusted, id), compared strictly. */
  predicate Before(adjusted: Scores, a: Expert, b: Expert)
    requires a < |adjusted| && b < |adjusted|
  {
    adjusted[a] > adjusted[b] || (adjusted[a] == adjusted[b] && a < b)
  }

  ghost predicate Ordered(adjusted: Scores, s: seq<Expert>)
    requires InRange(s, adjusted)
  {
    forall i, j :: 0 <= i < j < |s| ==> Before(adjusted, s[i], s[j])
  }

  function Insert(adjusted: Scores, x: Expert, s: seq<Expert>): (r: seq<Expert>)
    requires x < |adjusted| && InRange(s, adjusted)
    ensures |r| == |s| + 1 && InRange(r, adjusted)
  {
    if s == [] || Before(adjusted, x, s[0]) then [x] + s
    else
      var t := Insert(adjusted, x, s[1..]);
      [s[0]] + t
  }

  /** `sorted(selected, key=...)`. */
  function Canonical(adjusted: Scores, selected: seq<Expert>): (r: seq<Expert>)
    requires InRange(selected, adjusted)
    ensures |r| == |selected| && InRange(r, adjusted)
  {
    if selected == [] then [] else
      assert selected == [selected[0]] + selected[1..];
      Insert(adjusted, selected[0], Canonical(adjusted, selected[1..]))
  }

  lemma {:induction false} InsertMembers(adjusted: Scores, x: Expert, s: seq<Expert>)
    requires x < |adjusted| && InRange(s, adjusted)
    ensures multiset(Insert(adjusted, x, s)) == multiset(s) + multiset{x}
  {
    if s != [] && !Before(adjusted, x, s[0]) {
      InsertMembers(adjusted, x, s[1..]);
      assert s == [s[0]] + s[1..];
    }
  }

  lemma {:induction false} InsertOrdered(adjusted: Scores, x: Expert, s: seq<Expert>)
    requires x < |adjusted| && InRange(s, adjusted) && Ordered(adjusted, s) && x !in s
    ensures Ordered(adjusted, Insert(adjusted, x, s))
  {
    if s != [] && !Before(adjusted, x, s[0]) {
      var t := Insert(adjusted, x, s[1..]);
      InsertOrdered(adjusted, x, s[1..]);
      InsertMembers(adjusted, x, s[1..]);
      assert s[0] != x;
      forall i | 0 <= i < |t| ensures Before(adjusted, s[0], t[i]) {
        assert t[i] in multiset(s[1..]) + multiset{x};
      }
    }
  }

  /** The canonical route is a permutation of the answer, best first, ties by id. */
  lemma {:induction false} CanonicalOrder(adjusted: Scores, selected: seq<Expert>)
    requires InRange(selected, adjusted) && Distinct(selected)
    ensures Ordered(adjusted, Canonical(adjusted, selected))
    ensures var r := Canonical(adjusted, selected);
            forall i, j :: 0 <= i < j < |r| ==>
              adjusted[r[i]] > adjusted[r[j]] || (adjusted[r[i]] == adjusted[r[j]] && r[i] < r[j])
    ensures multiset(Canonical(adjusted, selected)) == multiset(selected)
  {
    if selected != [] {
      var t := selected[1..];
      assert selected == [selected[0]] + t;
      CanonicalOrder(adjusted, t);
      InsertMembers(adjusted, selected[0], Canonical(adjusted, t));
      assert selected[0] !in Canonical(adjusted, t) by {
        assert selected[0] !in multiset(t);
        assert selected[0] !in multiset(Canonical(adjusted, t));
      }
      InsertOrdered(adjusted, selected[0], Canonical(adjusted, t));
    }
  }

  lemma {:induction false} FirstIsBest(adjusted: Scores, s: seq<Expert>, x: Expert)
    requires InRange(s, adjusted) && Ordered(adjusted, s) && x in s
    ensures x < |adjusted| && (x == s[0] || Before(adjusted, s[0], x))
  {
    var i :| 0 <= i < |s| && s[i] == x;
  }

  lemma {:induction false} TailMultiset(s: seq<Expert>)
    requires s != []
    ensures multiset(s[1..]) == multiset(s) - multiset{s[0]}
  {
    assert s == [s[0]] + s[1..];
  }

  /** Two ordered lists of the same experts start with the same one. */
  lemma {:induction false} SameFirst(adjusted: Scores, a: seq<Expert>, b: seq<Expert>)
    requires InRange(a, adjusted) && InRange(b, adjusted) && a != [] && b != []
    requires Ordered(adjusted, a) && Ordered(adjusted, b) && multiset(a) == multiset(b)
    ensures a[0] == b[0]
  {
    assert a[0] in multiset(b) && b[0] in multiset(a);
    FirstIsBest(adjusted, a, b[0]);
    FirstIsBest(adjusted, b, a[0]);
  }

  lemma OrderedTail(adjusted: Scores, a: seq<Expert>)
    requires InRange(a, adjusted) && a != [] && Ordered(adjusted, a)
    ensures InRange(a[1..], adjusted) && Ordered(adjusted, a[1..])
  {
  }

  lemma {:induction false} SameLength(a: seq<Expert>, b: seq<Expert>)
    requires multiset(a) == multiset(b)
    ensures |a| == |b|
  {
    assert |multiset(a)| == |a| && |multiset(b)| == |b|;
  }

  lemma {:induction false} SameTail(a: seq<Expert>, b: seq<Expert>)
    requires a != [] && b != [] && a[0] == b[0] && multiset(a) == multiset(b)
    ensures multiset(a[1..]) == multiset(b[1..])
  {
    TailMultiset(a);
    TailMultiset(b);
  }

  lemma {:induction false} Rejoin(a: seq<Expert>, b: seq<Expert>)
    requires a != [] && b != [] && a[0] == b[0] && a[1..] == b[1..]
    ensures a == b
  {
    assert a == [a[0]] + a[1..] && b == [b[0]] + b[1..];
  }

  lemma {:induction false} OrderedUnique(adjusted: Scores, a: seq<Expert>, b: seq<Expert>)
    requires InRange(a, adjusted) && InRange(b, adjusted)
    requires Ordered(adjusted, a) && Ordered(adjusted, b) && multiset(a) == multiset(b)
    ensures a == b
  {
    hide Ordered, InRange, Before;
    SameLength(a, b);
    if a != [] {
      SameFirst(adjusted, a, b);
      OrderedTail(adjusted, a);
      OrderedTail(adjusted, b);
      SameTail(a, b);
      OrderedUnique(adjusted, a[1..], b[1..]);
      Rejoin(a, b);
    }
  }

  // ------------------------------------------------- the ranking of all experts

  function Everyone(adjusted: Scores): seq<Expert> {
    seq(|adjusted|, i requires 0 <= i => i)
  }

  /** All experts, best first. */
  function Ranking(adjusted: Scores): seq<Expert> {
    Canonical(adjusted, Everyone(adjusted))
  }

  /** The k-th and the next expert of the ranking do not tie. */
  predicate ClearBoundary(adjusted: Scores, k: nat)
    requires k <= |adjusted|
  {
    k == 0 || k == |adjusted| || adjusted[Ranking(adjusted)[k - 1]] > adjusted[Ranking(adjusted)[k]]
  }

  ghost function Members(s: seq<Expert>): set<Expert> {
    set x | x in s
  }

  lemma {:induction false} DistinctSize(s: seq<Expert>)
    requires Distinct(s)
    ensures |Members(s)| == |s|
  {
    if s != [] {
      var t := s[..|s| - 1];
      DistinctSize(t);
      assert Members(s) == Members(t) + {s[|s| - 1]};
    }
  }

  lemma {:induction false} RankingFacts(adjusted: Scores)
    ensures InRange(Ranking(adjusted), adjusted) && Ordered(adjusted, Ranking(adjusted)) && |Ranking(adjusted)| == |adjusted|
    ensures Distinct(Ranking(adjusted)) && forall x: Expert :: x in Ranking(adjusted) <==> x < |adjusted|
  {
    var e, r := Everyone(adjusted), Ranking(adjusted);
    CanonicalOrder(adjusted, e);
    assert |multiset(r)| == |multiset(e)|;
    forall x: Expert ensures x in r <==> x < |adjusted| {
      assert x in multiset(r) <==> x in multiset(e);
      assert x < |adjusted| ==> e[x] == x;
    }
  }

  /** In an ordered list, whoever stands in the first `k` beats whoever stands after. */
  lemma {:induction false} HeadBeatsRest(adjusted: Scores, r: seq<Expert>, k: nat, x: Expert, y: Expert)
    requires InRange(r, adjusted) && Ordered(adjusted, r) && k <= |r|
    requires x in r[..k] && y in r && y !in r[..k]
    ensures x < |adjusted| && y < |adjusted| && Before(adjusted, x, y)
  {
    var p :| 0 <= p < k && r[..k][p] == x;
    var q :| 0 <= q < |r| && r[q] == y;
    assert forall i :: 0 <= i < k ==> r[i] in r[..k] by {
      assert forall i :: 0 <= i < k ==> r[..k][i] == r[i];
    }
    assert r[p] == x;
  }

  /** With an untied boundary a selected expert is strictly better than any other. */
  lemma {:induction false} Better(adjusted: Scores, k: nat, selected: seq<Expert>, y: Expert, x: Expert)
    requires TopK(adjusted, k, selected) && Untied(adjusted, selected)
    requires y in selected && x !in selected && x < |adjusted|
    ensures y < |adjusted| && adjusted[y] > adjusted[x]
  {
    var i :| 0 <= i < |selected| && selected[i] == y;
  }

  /** With an untied boundary the selected experts fill the head of the ranking. */
  lemma {:induction false} HeadIsSelected(adjusted: Scores, k: nat, selected: seq<Expert>)
    requires TopK(adjusted, k, selected) && Untied(adjusted, selected)
    ensures k <= |Ranking(adjusted)|
    ensures Members(Ranking(adjusted)[..k]) == Members(selected)
  {
    hide Ranking;
    var r := Ranking(adjusted);
    RankingFacts(adjusted);
    DistinctSize(selected);
    DistinctSize(r);
    SubsetSize(Members(selected), Members(r));
    var head := r[..k];
    DistinctSize(head);
    forall x | x in head ensures x in selected {
      assert x in r;
      if x !in selected {
        var y := Outside(selected, head, x);
        Better(adjusted, k, selected, y, x);
        HeadBeatsRest(adjusted, r, k, x, y);
      }
    }
    SubsetEqual(Members(head), Members(selected));
  }

  /** If the head holds a foreign expert, some selected expert is not in it. */
  lemma {:induction false} Outside(selected: seq<Expert>, head: seq<Expert>, foreign: Expert) returns (x: Expert)
    requires Distinct(selected) && Distinct(head) && |selected| == |head|
    requires foreign in head && foreign !in selected
    ensures x in selected && x !in head
  {
    DistinctSize(selected);
    DistinctSize(head);
    if Members(selected) <= Members(head) {
      SubsetSize(Members(selected), Members(head) - {foreign});
    }
    x :| x in Members(selected) && x !in Members(head);
  }

  lemma {:induction false} SubsetEqual(a: set<Expert>, b: set<Expert>)
    requires a <= b && |a| == |b|
    ensures a == b
  {
    assert b == a + (b - a);
  }

  lemma {:induction false} SameMultiset(a: seq<Expert>, b: seq<Expert>)
    requires Distinct(a) && Distinct(b) && Members(a) == Members(b)
    ensures multiset(a) == multiset(b)
  {
    forall x ensures multiset(a)[x] == multiset(b)[x] {
      Multiplicity(a, x);
      Multiplicity(b, x);
      assert x in Members(a) <==> x in Members(b);
    }
  }

  lemma {:induction false} Multiplicity(a: seq<Expert>, x: Expert)
    requires Distinct(a)
    ensures multiset(a)[x] == if x in a then 1 else 0
  {
    if a != [] {
      Multiplicity(a[1..], x);
      assert a == [a[0]] + a[1..];
      assert a[0] !in a[1..];
    }
  }

  /** The head of the ranking is an answer of the top-k primitive, so there is one. */
  lemma {:induction false} HeadIsTopK(adjusted: Scores, k: nat)
    requires k <= |adjusted|
    ensures k <= |Ranking(adjusted)| && TopK(adjusted, k, Ranking(adjusted)[..k])
  {
    hide Canonical;
    var r := Ranking(adjusted);
    RankingFacts(adjusted);
    forall i, y | 0 <= i < k && 0 <= y < |adjusted| && y !in r[..k] ensures adjusted[r[..k][i]] >= adjusted[y] {
      HeadBeatsRest(adjusted, r, k, r[..k][i], y);
    }
  }

  /** Whether an answer's boundary is tied can be read off the scores. */
  lemma {:induction false} BoundaryOfAnswer(adjusted: Scores, k: nat, selected: seq<Expert>)
    requires k <= |adjusted| && TopK(adjusted, k, selected)
    ensures Untied(adjusted, selected) <==> ClearBoundary(adjusted, k)
  {
    hide Canonical;
    var r := Ranking(adjusted);
    var head := r[..k];
    RankingFacts(adjusted);
    HeadIsTopK(adjusted, k);
    if Untied(adjusted, selected) {
      UntiedAnswersAgree(adjusted, k, selected, head);
      if 0 < k < |adjusted| {
        assert r[k] !in head && head[k - 1] == r[k - 1];
        assert Before(adjusted, r[k - 1], r[k]);
      }
    }
    if ClearBoundary(adjusted, k) {
      HeadUntied(adjusted, k);
      UntiedAnswersAgree(adjusted, k, head, selected);
    }
  }

  lemma {:induction false} HeadUntied(adjusted: Scores, k: nat)
    requires k <= |adjusted| && ClearBoundary(adjusted, k)
    ensures k <= |Ranking(adjusted)| && InRange(Ranking(adjusted)[..k], adjusted)
    ensures Untied(adjusted, Ranking(adjusted)[..k])
  {
    hide Canonical;
    var r := Ranking(adjusted);
    RankingFacts(adjusted);
    forall i | 0 <= i < k ensures r[i] in r[..k] {
      assert r[..k][i] == r[i];
    }
    forall i, y | 0 <= i < k && 0 <= y < |adjusted| && y !in r[..k] ensures adjusted[r[..k][i]] != adjusted[y] {
      var x: Expert := y;
      assert x in r;
      var q :| 0 <= q < |r| && r[q] == x;
      assert i < k - 1 ==> Before(adjusted, r[i], r[k - 1]);
      assert k < q ==> Before(adjusted, r[k], r[q]);
    }
  }

  /** Without a tie at the boundary the route is the head of the one ranking, so
      it does not depend on what the top-k primitive answered. */
  lemma {:induction false} UntiedRoute(adjusted: Scores, k: nat, selected: seq<Expert>)
    requires k <= |adjusted| && ClearBoundary(adjusted, k) && TopK(adjusted, k, selected)
    ensures k <= |Ranking(adjusted)| && Canonical(adjusted, selected) == Ranking(adjusted)[..k]
  {
    var r := Ranking(adjusted);
    BoundaryOfAnswer(adjusted, k, selected);
    HeadIsSelected(adjusted, k, selected);
    RankingFacts(adjusted);
    CanonicalOrder(adjusted, selected);
    SameMultiset(r[..k], selected);
    OrderedUnique(adjusted, Canonical(adjusted, selected), r[..k]);
  }

  /** A smaller untied route is a prefix of a larger untied one. */
  lemma {:induction false} SmallerRouteIsPrefix(adjusted: Scores, k: nat, small: seq<Expert>, m: nat, large: seq<Expert>)
    requires k <= m <= |adjusted| && TopK(adjusted, k, small) && TopK(adjusted, m, large)
    requires ClearBoundary(adjusted, k) && ClearBoundary(adjusted, m)
    ensures Canonical(adjusted, small) == Canonical(adjusted, large)[..k]
  {
    UntiedRoute(adjusted, k, small);
    UntiedRoute(adjusted, m, large);
  }

  /** An answer with a tied boundary can exchange a selected expert for its equal. */
  lemma {:induction false} ExchangeTied(adjusted: Scores, k: nat, selected: seq<Expert>)
    returns (other: seq<Expert>)
    requires TopK(adjusted, k, selected) && !Untied(adjusted, selected)
    ensures TopK(adjusted, k, other) && Canonical(adjusted, other) != Canonical(adjusted, selected)
  {
    var p, j :| 0 <= p < |selected| && 0 <= j < |adjusted| && j !in selected && adjusted[selected[p]] == adjusted[j];
    other := selected[p := j];
    ExchangedMembers(selected, p, j);
    assert other[p] == j && InRange(other, adjusted);
    forall i, y | 0 <= i < |other| && 0 <= y < |adjusted| && y !in other ensures adjusted[other[i]] >= adjusted[y] {
      if i != p && y in selected {
        assert y == selected[p];
        assert adjusted[selected[i]] >= adjusted[j];
      } else if y !in selected {
        assert adjusted[selected[i]] >= adjusted[y] && adjusted[selected[p]] >= adjusted[y];
      }
    }
    CanonicalOrder(adjusted, selected);
    CanonicalOrder(adjusted, other);
    assert j in multiset(Canonical(adjusted, other)) && j !in multiset(Canonical(adjusted, selected));
  }

  /** A tied boundary is ambiguous: some other valid answer gives another route. */
  lemma {:induction false} TiedRouteIsAmbiguous(adjusted: Scores, k: nat, selected: seq<Expert>)
    returns (other: seq<Expert>)
    requires k <= |adjusted| && !ClearBoundary(adjusted, k) && TopK(adjusted, k, selected)
    ensures TopK(adjusted, k, other) && Canonical(adjusted, other) != Canonical(adjusted, selected)
  {
    BoundaryOfAnswer(adjusted, k, selected);
    other := ExchangeTied(adjusted, k, selected);
  }

  lemma {:induction false} ExchangedMembers(s: seq<Expert>, p: nat, j: Expert)
    requires Distinct(s) && p < |s| && j !in s
    ensures Distinct(s[p := j])
    ensures forall x :: x in s[p := j] <==> x == j || (x in s && x != s[p])
  {
    var t := s[p := j];
    forall x ensures x in t <==> x == j || (x in s && x != s[p]) {
      if x == j {
        assert t[p] == j;
      } else if x in s && x != s[p] {
        var q :| 0 <= q < |s| && s[q] == x;
        assert t[q] == x;
      }
    }
  }

  /** All valid answers give one route if and only if the k-th and the next score differ. */
  lemma {:induction false} RouteIsDetermined(adjusted: Scores, k: nat)
    requires k <= |adjusted|
    ensures ClearBoundary(adjusted, k) <==>
              forall a, b :: TopK(adjusted, k, a) && TopK(adjusted, k, b) ==> Canonical(adjusted, a) == Canonical(adjusted, b)
  {
    hide Canonical, TopK, ClearBoundary;
    if ClearBoundary(adjusted, k) {
      forall a, b | TopK(adjusted, k, a) && TopK(adjusted, k, b)
        ensures InRange(a, adjusted) && InRange(b, adjusted) && Canonical(adjusted, a) == Canonical(adjusted, b)
      {
        TopKInRange(adjusted, k, a);
        TopKInRange(adjusted, k, b);
        UntiedRoute(adjusted, k, a);
        UntiedRoute(adjusted, k, b);
      }
    } else {
      HeadIsTopK(adjusted, k);
      var head := Ranking(adjusted)[..k];
      var other := TiedRouteIsAmbiguous(adjusted, k, head);
      assert TopK(adjusted, k, head) && TopK(adjusted, k, other);
    }
  }

  lemma TopKInRange(adjusted: Scores, k: nat, selected: seq<Expert>)
    requires TopK(adjusted, k, selected)
    ensures InRange(selected, adjusted) && |selected| == k
  {
  }

  /** Two experts with one score: either may be the route of a single expert. */
  lemma {:induction false} TiedPair()
    ensures var adjusted := [0.5, 0.5];
            && TopK(adjusted, 1, [0]) && TopK(adjusted, 1, [1]) && !ClearBoundary(adjusted, 1)
            && Canonical(adjusted, [0]) == [0] && Canonical(adjusted, [1]) == [1]
  {
    var adjusted := [0.5, 0.5];
    var a, b := [0], [1];
    assert Canonical(adjusted, a[1..]) == [] && Canonical(adjusted, b[1..]) == [];
    RankingFacts(adjusted);
  }

  lemma {:induction false} UntiedAnswersAgree(adjusted: Scores, k: nat, a: seq<Expert>, b: seq<Expert>)
    requires TopK(adjusted, k, a) && Untied(adjusted, a) && TopK(adjusted, k, b)
    ensures Untied(adjusted, b)
  {
    DistinctSize(a);
    DistinctSize(b);
    forall p | 0 <= p < |b| ensures b[p] in a {
      if b[p] !in a {
        var y := Outside(a, b, b[p]);
        Better(adjusted, k, a, y, b[p]);
      }
    }
    SubsetEqual(Members(b), Members(a));
    forall i, j | 0 <= i < |b| && 0 <= j < |adjusted| && j !in b ensures adjusted[b[i]] != adjusted[j] {
      assert j !in Members(b);
      var q :| 0 <= q < |a| && a[q] == b[i];
      assert adjusted[a[q]] != adjusted[j];
    }
  }
}
