// Half-open byte ranges, their lexicographic sort, and what two sweeps over the
// sorted list decide: that no two ranges share a byte, and that the ranges own
// every byte of an interval exactly once.

module Intervals {
  import opened Wrappers

  /** The bytes [start, end). */
  datatype Range = Range(start: int, end: int)

  predicate Leq(a: Range, b: Range) {
    a.start < b.start || (a.start == b.start && a.end <= b.end)
  }

  ghost predicate Sorted(s: seq<Range>) {
    forall i, j :: 0 <= i < j < |s| ==> Leq(s[i], s[j])
  }

  ghost predicate Nonempty(s: seq<Range>) {
    forall r :: r in s ==> r.start < r.end
  }

  predicate Apart(a: Range, b: Range) {
    a.end <= b.start || b.end <= a.start
  }

  /** No two ranges share a byte. */
  ghost predicate PairwiseApart(s: seq<Range>) {
    forall i, j :: 0 <= i < j < |s| ==> Apart(s[i], s[j])
  }

  // ----------------------------------------------------------------- sort

  function Insert(x: Range, s: seq<Range>): (r: seq<Range>) {
    if s == [] || Leq(x, s[0]) then [x] + s else [s[0]] + Insert(x, s[1..])
  }

  /** `list.sort` on pairs. */
  function Sort(s: seq<Range>): (r: seq<Range>) {
    if s == [] then [] else Insert(s[0], Sort(s[1..]))
  }

  lemma {:induction false} InsertMembers(x: Range, s: seq<Range>)
    ensures multiset(Insert(x, s)) == multiset(s) + multiset{x}
  {
    if s != [] && !Leq(x, s[0]) {
      InsertMembers(x, s[1..]);
      assert s == [s[0]] + s[1..];
    }
  }

  lemma {:induction false} InsertSorted(x: Range, s: seq<Range>)
    requires Sorted(s)
    ensures Sorted(Insert(x, s))
  {
    if s != [] && !Leq(x, s[0]) {
      InsertSorted(x, s[1..]);
      InsertMembers(x, s[1..]);
      forall r | r in Insert(x, s[1..]) ensures Leq(s[0], r) {
        assert r in multiset(s[1..]) + multiset{x};
      }
    } else if s != [] {
      forall r | r in s ensures Leq(x, r) {
      }
    }
  }

  lemma {:induction false} SortPermutes(s: seq<Range>)
    ensures multiset(Sort(s)) == multiset(s) && Sorted(Sort(s))
  {
    if s != [] {
      SortPermutes(s[1..]);
      InsertMembers(s[0], Sort(s[1..]));
      InsertSorted(s[0], Sort(s[1..]));
      assert s == [s[0]] + s[1..];
    }
  }

  lemma {:induction false} SameMembers(a: seq<Range>, b: seq<Range>)
    requires multiset(a) == multiset(b)
    ensures forall r :: r in a <==> r in b
  {
    forall r ensures r in a <==> r in b {
      assert r in multiset(a) <==> r in multiset(b);
    }
  }

  lemma {:induction false} LeastFirst(a: seq<Range>, r: Range)
    requires Sorted(a) && r in a
    ensures Leq(a[0], r)
  {
    var i :| 0 <= i < |a| && a[i] == r;
  }

  lemma {:induction false} MultisetTail(a: seq<Range>)
    requires a != []
    ensures multiset(a[1..]) == multiset(a) - multiset{a[0]}
  {
    assert a == [a[0]] + a[1..];
  }

  /** Two sorted lists with the same ranges are the same list. */
  lemma {:induction false} SortedUnique(a: seq<Range>, b: seq<Range>)
    requires Sorted(a) && Sorted(b) && multiset(a) == multiset(b)
    ensures a == b
  {
    assert |multiset(a)| == |a| && |multiset(b)| == |b|;
    if a != [] {
      SameMembers(a, b);
      assert a[0] in b && b[0] in a;
      LeastFirst(a, b[0]);
      LeastFirst(b, a[0]);
      MultisetTail(a);
      MultisetTail(b);
      SortedUnique(a[1..], b[1..]);
      assert a == [a[0]] + a[1..] && b == [b[0]] + b[1..];
    }
  }

  // ----------------------------------------------- disjointness by a sweep

  lemma {:induction false} ApartInsert(x: Range, s: seq<Range>)
    ensures PairwiseApart(Insert(x, s)) <==> PairwiseApart([x] + s)
  {
    if s != [] && !Leq(x, s[0]) {
      var h, t := s[0], s[1..];
      ApartInsert(x, t);
      InsertMembers(x, t);
      ApartCons(h, Insert(x, t));
      ApartCons(x, s);
      ApartCons(h, t);
      ApartCons(x, t);
      assert s == [h] + t;
      SameMembers(Insert(x, t), t + [x]);
      assert forall r :: r in Insert(x, t) <==> r == x || r in t;
      assert forall r :: r in s <==> r == h || r in t;
      assert Insert(x, s) == [h] + Insert(x, t);
      assert h in s && x in Insert(x, t);
    }
  }

  lemma {:induction false} ApartCons(x: Range, s: seq<Range>)
    ensures PairwiseApart([x] + s) <==> PairwiseApart(s) && forall r :: r in s ==> Apart(x, r)
  {
    var l := [x] + s;
    if PairwiseApart(s) && forall r :: r in s ==> Apart(x, r) {
      forall i, j | 0 <= i < j < |l| ensures Apart(l[i], l[j]) {
        if i > 0 {
          assert Apart(s[i - 1], s[j - 1]);
        }
      }
    }
    if PairwiseApart(l) {
      forall i, j | 0 <= i < j < |s| ensures Apart(s[i], s[j]) {
        assert l[i + 1] == s[i] && l[j + 1] == s[j];
      }
      forall r | r in s ensures Apart(x, r) {
        var i :| 0 <= i < |s| && s[i] == r;
        assert Apart(l[0], l[i + 1]);
      }
    }
  }

  /** Sorting does not change whether the ranges are pairwise disjoint. */
  lemma {:induction false} ApartSort(s: seq<Range>)
    ensures PairwiseApart(Sort(s)) <==> PairwiseApart(s)
  {
    if s != [] {
      var t := Sort(s[1..]);
      ApartSort(s[1..]);
      ApartInsert(s[0], t);
      ApartCons(s[0], t);
      ApartCons(s[0], s[1..]);
      SortPermutes(s[1..]);
      SameMembers(t, s[1..]);
      assert s == [s[0]] + s[1..];
    }
  }

  /** The adjacent check of the extent validator. */
  predicate Adjacent(s: seq<Range>) {
    forall i :: 0 <= i < |s| - 1 ==> s[i].end <= s[i + 1].start
  }

  lemma {:induction false} AdjacentChain(s: seq<Range>, i: nat, j: nat)
    requires Nonempty(s) && Adjacent(s) && i < j < |s|
    ensures s[i].end <= s[j].start
    decreases j
  {
    if i + 1 < j {
      AdjacentChain(s, i, j - 1);
      assert s[j - 1] in s;
      assert s[j - 1].end <= s[j - 1 + 1].start;
    }
  }

  /** On sorted nonempty ranges, checking neighbours checks every pair. */
  lemma {:induction false} AdjacentIsPairwise(s: seq<Range>)
    requires Sorted(s) && Nonempty(s)
    ensures Adjacent(s) <==> PairwiseApart(s)
  {
    if Adjacent(s) {
      forall i, j | 0 <= i < j < |s| ensures Apart(s[i], s[j]) {
        AdjacentChain(s, i, j);
      }
    }
    if PairwiseApart(s) {
      forall i | 0 <= i < |s| - 1 ensures s[i].end <= s[i + 1].start {
        assert Apart(s[i], s[i + 1]) && Leq(s[i], s[i + 1]) && s[i + 1] in s;
      }
    }
  }

  // ------------------------------------------------------ tiling by a sweep

  predicate Owns(r: Range, b: int) {
    r.start <= b < r.end
  }

  ghost predicate Covered(s: seq<Range>, b: int) {
    exists r :: r in s && Owns(r, b)
  }

  /** Every byte of [low, limit) lies in exactly one range, and no range leaves it. */
  ghost predicate Tiles(s: seq<Range>, low: int, limit: int) {
    && PairwiseApart(s)
    && (forall r :: r in s ==> low <= r.start && r.end <= limit)
    && (forall b :: low <= b < limit ==> Covered(s, b))
  }

  /** The cursor sweep of the header parser over what is left of the sorted list. */
  predicate Contiguous(s: seq<Range>, cursor: int, limit: int) {
    if s == [] then cursor == limit
    else s[0].start == cursor && Contiguous(s[1..], s[0].end, limit)
  }

  lemma {:induction false} CoveredCons(h: Range, t: seq<Range>, b: int)
    ensures Covered([h] + t, b) <==> Owns(h, b) || Covered(t, b)
  {
    if Owns(h, b) {
      assert h in [h] + t;
    }
    if Covered(t, b) {
      var r :| r in t && Owns(r, b);
      assert r in [h] + t;
    }
  }

  lemma {:induction false} ContiguousTiles(s: seq<Range>, cursor: int, limit: int)
    requires Nonempty(s) && Contiguous(s, cursor, limit)
    ensures Tiles(s, cursor, limit) && cursor <= limit
  {
    if s != [] {
      var h, t := s[0], s[1..];
      assert s == [h] + t && h in s;
      ContiguousTiles(t, h.end, limit);
      ApartCons(h, t);
      forall b | cursor <= b < limit ensures Covered(s, b) {
        CoveredCons(h, t, b);
        assert b >= h.end ==> Covered(t, b);
      }
    }
  }

  /** In a sorted tiling the first range starts at the first byte. */
  lemma {:induction false} FirstAtCursor(s: seq<Range>, cursor: int, limit: int)
    requires Sorted(s) && Nonempty(s) && cursor < limit && Tiles(s, cursor, limit)
    ensures s != [] && s[0].start == cursor
  {
    assert Covered(s, cursor);
    var r :| r in s && Owns(r, cursor);
    LeastFirst(s, r);
    assert s[0] in s;
  }

  /** Without its first range, a sorted tiling tiles what that range does not own. */
  lemma {:induction false} TailTiles(h: Range, t: seq<Range>, limit: int)
    requires Sorted([h] + t) && Nonempty([h] + t) && Tiles([h] + t, h.start, limit)
    ensures Tiles(t, h.end, limit)
  {
    ApartCons(h, t);
    forall q | q in t ensures h.end <= q.start && q.end <= limit {
      assert q in [h] + t && Apart(h, q);
      LeastFirst([h] + t, q);
    }
    assert h in [h] + t;
    forall b | h.end <= b < limit ensures Covered(t, b) {
      assert Covered([h] + t, b);
      CoveredCons(h, t, b);
    }
  }

  lemma {:induction false} TilesContiguous(s: seq<Range>, cursor: int, limit: int)
    requires Sorted(s) && Nonempty(s) && cursor <= limit && Tiles(s, cursor, limit)
    ensures Contiguous(s, cursor, limit)
  {
    if s != [] {
      var h, t := s[0], s[1..];
      assert s == [h] + t && h in s;
      FirstAtCursor(s, cursor, limit);
      TailTiles(h, t, limit);
      TilesContiguous(t, h.end, limit);
    } else if cursor < limit {
      FirstAtCursor(s, cursor, limit);
    }
  }

  lemma {:induction false} TilesSort(s: seq<Range>, low: int, limit: int)
    ensures Tiles(Sort(s), low, limit) <==> Tiles(s, low, limit)
  {
    SortPermutes(s);
    SameMembers(Sort(s), s);
    ApartSort(s);
    forall b ensures Covered(Sort(s), b) <==> Covered(s, b) {
      if Covered(s, b) {
        var r :| r in s && Owns(r, b);
        assert r in Sort(s);
      }
    }
  }

  /** The sweep over the sorted ranges accepts exactly the tilings. */
  lemma {:induction false} SweepIsTiling(s: seq<Range>, limit: int)
    requires Nonempty(s) && 0 <= limit
    ensures Contiguous(Sort(s), 0, limit) <==> Tiles(s, 0, limit)
  {
    SortPermutes(s);
    SameMembers(Sort(s), s);
    TilesSort(s, 0, limit);
    if Contiguous(Sort(s), 0, limit) {
      ContiguousTiles(Sort(s), 0, limit);
    }
    if Tiles(s, 0, limit) {
      TilesContiguous(Sort(s), 0, limit);
    }
  }

  // ---------------------------------------------------------------- volume

  function Volume(s: seq<Range>): int {
    if s == [] then 0 else (s[0].end - s[0].start) + Volume(s[1..])
  }

  lemma {:induction false} VolumeInsert(x: Range, s: seq<Range>)
    ensures Volume(Insert(x, s)) == x.end - x.start + Volume(s)
  {
    if s != [] && !Leq(x, s[0]) {
      VolumeInsert(x, s[1..]);
      assert Insert(x, s)[1..] == Insert(x, s[1..]);
    } else {
      assert Insert(x, s)[1..] == s;
    }
  }

  lemma {:induction false} VolumeSort(s: seq<Range>)
    ensures Volume(Sort(s)) == Volume(s)
  {
    if s != [] {
      VolumeSort(s[1..]);
      VolumeInsert(s[0], Sort(s[1..]));
    }
  }

  lemma {:induction false} VolumeBound(s: seq<Range>, low: int, high: int)
    requires Nonempty(s) && Adjacent(s) && low <= high
    requires s != [] ==> low <= s[0].start
    requires forall r :: r in s ==> r.end <= high
    ensures Volume(s) <= high - low
  {
    if s != [] {
      assert s[0] in s;
      forall i | 0 <= i < |s[1..]| - 1 ensures s[1..][i].end <= s[1..][i + 1].start {
        assert s[i + 1].end <= s[i + 1 + 1].start;
      }
      VolumeBound(s[1..], s[0].end, high);
    }
  }

  /** Disjoint ranges inside [0, limit) hold at most `limit` bytes. */
  lemma {:induction false} DisjointVolume(s: seq<Range>, limit: nat)
    requires Nonempty(s) && PairwiseApart(s)
    requires forall r :: r in s ==> 0 <= r.start && r.end <= limit
    ensures Volume(s) <= limit
  {
    var t := Sort(s);
    SortPermutes(s);
    SameMembers(t, s);
    ApartSort(s);
    AdjacentIsPairwise(t);
    VolumeSort(s);
    VolumeBound(t, 0, limit);
  }
}
