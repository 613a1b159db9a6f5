// The extent validator of the K3X v1 format (converter/k3x_converter/format.py).

module Layout {
  import opened Format
  import opened Intervals
  import opened Struct
  import opened Wrappers

  // --------------------------------------------------- extent validation

  datatype Extent = Extent(offset: int, length: int)

  function ExtentsOf(r: TensorRecord): seq<Extent> {
    [Extent(r.dataOffset, r.dataLength), Extent(r.auxiliaryOffset, r.auxiliaryLength)]
  }

  function AllExtents(records: seq<TensorRecord>): seq<Extent> {
    if records == [] then [] else AllExtents(records[..|records| - 1]) + ExtentsOf(records[|records| - 1])
  }

  /** An empty extent is at 0; any other is aligned and ends inside the file. */
  predicate Placed(e: Extent, fileLength: int, alignment: int)
    requires alignment > 0
  {
    if e.length == 0 then e.offset == 0
    else e.length > 0 && e.offset % alignment == 0 && e.offset + e.length <= fileLength
  }

  /** The error the validator raises for an extent that is not placed. */
  function Misplacement(e: Extent, alignment: int): K3XError
    requires alignment > 0
  {
    if e.length == 0 then InvalidEmptyExtent
    else if e.offset % alignment != 0 then UnalignedExtent
    else TruncatedFile
  }

  function RangeOf(e: Extent): seq<Range> {
    if e.length == 0 then [] else [Range(e.offset, e.offset + e.length)]
  }

  /** The nonempty extents as byte ranges. */
  function RangesOf(es: seq<Extent>): seq<Range> {
    if es == [] then [] else RangesOf(es[..|es| - 1]) + RangeOf(es[|es| - 1])
  }

  /** Every extent is placed and no byte belongs to two of them. */
  ghost predicate GoodLayout(records: seq<TensorRecord>, fileLength: int, alignment: int)
    requires alignment > 0
  {
    && (forall e :: e in AllExtents(records) ==> Placed(e, fileLength, alignment))
    && PairwiseApart(RangesOf(AllExtents(records)))
  }

  lemma {:induction false} RangesNonempty(es: seq<Extent>, fileLength: int, alignment: int)
    requires alignment > 0 && forall e :: e in es ==> Placed(e, fileLength, alignment)
    ensures Nonempty(RangesOf(es))
    ensures forall r :: r in RangesOf(es) ==> r.end <= fileLength && Extent(r.start, r.end - r.start) in es
  {
    if es != [] {
      var init, e := es[..|es| - 1], es[|es| - 1];
      assert es == init + [e];
      assert e in es && forall x :: x in init ==> x in es;
      RangesNonempty(init, fileLength, alignment);
    }
  }

  lemma {:induction false} AllExtentsStep(records: seq<TensorRecord>, i: nat)
    requires i < |records|
    ensures AllExtents(records[..i + 1]) == AllExtents(records[..i]) + ExtentsOf(records[i])
  {
    assert records[..i + 1][..i] == records[..i];
  }

  lemma {:induction false} AllExtentsPrefix(records: seq<TensorRecord>, i: nat)
    requires i <= |records|
    ensures AllExtents(records[..i]) <= AllExtents(records)
    decreases |records| - i
  {
    if i < |records| {
      AllExtentsPrefix(records, i + 1);
      AllExtentsStep(records, i);
    } else {
      assert records[..i] == records;
    }
  }

  lemma {:induction false} RangesStep(es: seq<Extent>, e: Extent)
    ensures RangesOf(es + [e]) == RangesOf(es) + RangeOf(e)
  {
    assert (es + [e])[..|es|] == es;
  }

  /** The checks on one extent; an empty one contributes no range. */
  method Place(e: Extent, fileLength: int, alignment: int) returns (r: Result<seq<Range>>)
    requires alignment > 0
    ensures Placed(e, fileLength, alignment) ==> r == Ok(RangeOf(e))
    ensures !Placed(e, fileLength, alignment) ==> r == Err(Misplacement(e, alignment))
  {
    if e.length == 0 {
      if e.offset != 0 {
        return Err(InvalidEmptyExtent);
      }
      return Ok([]);
    }
    if e.offset % alignment != 0 {
      return Err(UnalignedExtent);
    }
    var end := e.offset + e.length;
    if end < e.offset || end > fileLength {
      return Err(TruncatedFile);
    }
    return Ok([Range(e.offset, end)]);
  }

  /** The neighbour check over the sorted ranges. */
  method Sweep(ranges: seq<Range>) returns (ok: bool)
    ensures ok <==> Adjacent(ranges)
  {
    var i := 0;
    while i + 1 < |ranges|
      invariant forall k :: 0 <= k < i && k + 1 < |ranges| ==> ranges[k].end <= ranges[k + 1].start
    {
      if ranges[i + 1].start < ranges[i].end {
        return false;
      }
      i := i + 1;
    }
    return true;
  }

  /** The first misplaced extent, if any, decides the error. */
  ghost predicate FirstMisplaced(es: seq<Extent>, fileLength: int, alignment: int, error: K3XError)
    requires alignment > 0
  {
    exists k :: 0 <= k < |es| && !Placed(es[k], fileLength, alignment) && error == Misplacement(es[k], alignment)
                && forall j :: 0 <= j < k ==> Placed(es[j], fileLength, alignment)
  }

  ghost predicate AllPlaced(es: seq<Extent>, fileLength: int, alignment: int)
    requires alignment > 0
  {
    forall k :: 0 <= k < |es| ==> Placed(es[k], fileLength, alignment)
  }

  method CollectRanges(records: seq<TensorRecord>, fileLength: int, alignment: int) returns (r: Result<seq<Range>>)
    requires alignment > 0
    ensures var es := AllExtents(records);
            match r
            case Ok(ranges) => AllPlaced(es, fileLength, alignment) && ranges == RangesOf(es)
            case Err(error) => FirstMisplaced(es, fileLength, alignment, error)
  {
    var ranges: seq<Range> := [];
    for i := 0 to |records|
      invariant ranges == RangesOf(AllExtents(records[..i]))
      invariant AllPlaced(AllExtents(records[..i]), fileLength, alignment)
    {
      ghost var before := AllExtents(records[..i]);
      AllExtentsStep(records, i);
      AllExtentsPrefix(records, i + 1);
      var own :- CollectPair(ExtentsOf(records[i]), fileLength, alignment, before, AllExtents(records));
      RangesConcat(before, ExtentsOf(records[i]));
      ranges := ranges + own;
    }
    assert records[..|records|] == records;
    return Ok(ranges);
  }

  /** The inner loop, over the two extents of one record. */
  method CollectPair(pair: seq<Extent>, fileLength: int, alignment: int,
                     ghost before: seq<Extent>, ghost all: seq<Extent>)
    returns (r: Result<seq<Range>>)
    requires alignment > 0 && AllPlaced(before, fileLength, alignment) && before + pair <= all
    ensures match r
            case Ok(ranges) => AllPlaced(before + pair, fileLength, alignment) && ranges == RangesOf(pair)
            case Err(error) => FirstMisplaced(all, fileLength, alignment, error)
  {
    var ranges: seq<Range> := [];
    for j := 0 to |pair|
      invariant ranges == RangesOf(pair[..j])
      invariant AllPlaced(pair[..j], fileLength, alignment)
    {
      var placed := Place(pair[j], fileLength, alignment);
      assert pair[..j + 1] == pair[..j] + [pair[j]];
      if placed.Err? {
        var k := |before| + j;
        assert (before + pair)[k] == pair[j];
        forall x | 0 <= x < k ensures Placed(all[x], fileLength, alignment) {
          assert all[x] == (before + pair)[x];
          assert x >= |before| ==> pair[..j][x - |before|] == all[x];
        }
        return Err(placed.error);
      }
      RangesStep(pair[..j], pair[j]);
      ranges := ranges + placed.value;
    }
    assert pair[..|pair|] == pair;
    return Ok(ranges);
  }

  method ValidateExtentLayout(records: seq<TensorRecord>, fileLength: int, alignment: int)
    returns (r: Result<()>)
    requires alignment > 0
    ensures r.Ok? <==> GoodLayout(records, fileLength, alignment)
    ensures r.Err? ==>
              if AllPlaced(AllExtents(records), fileLength, alignment) then r.error == OverlappingExtent
              else FirstMisplaced(AllExtents(records), fileLength, alignment, r.error)
  {
    var collected := CollectRanges(records, fileLength, alignment);
    if collected.Err? {
      return Err(collected.error);
    }
    RangesNonempty(AllExtents(records), fileLength, alignment);
    ghost var unsorted := collected.value;
    SortPermutes(unsorted);
    SameMembers(Sort(unsorted), unsorted);
    ApartSort(unsorted);
    AdjacentIsPairwise(Sort(unsorted));
    var ok := Sweep(Sort(collected.value));
    return if ok then Ok(()) else Err(OverlappingExtent);
  }

  // ----------------------------------------------- what acceptance implies

  /** The stored bytes of all tensors. */
  function StoredBytes(es: seq<Extent>): int {
    if es == [] then 0 else StoredBytes(es[..|es| - 1]) + es[|es| - 1].length
  }

  lemma {:induction false} VolumeConcat(a: seq<Range>, b: seq<Range>)
    ensures Volume(a + b) == Volume(a) + Volume(b)
  {
    if a == [] {
      assert a + b == b;
    } else {
      assert (a + b)[1..] == a[1..] + b;
      VolumeConcat(a[1..], b);
    }
  }

  lemma {:induction false} VolumeIsStored(es: seq<Extent>)
    ensures Volume(RangesOf(es)) == StoredBytes(es)
  {
    if es != [] {
      var init, e := es[..|es| - 1], es[|es| - 1];
      VolumeIsStored(init);
      VolumeConcat(RangesOf(init), RangeOf(e));
    }
  }

  /** An accepted file of unsigned offsets stores no more tensor bytes than it has. */
  lemma {:induction false} StoredFits(records: seq<TensorRecord>, fileLength: nat, alignment: int)
    requires alignment > 0 && GoodLayout(records, fileLength, alignment)
    requires forall r :: r in records ==> r.dataOffset >= 0 && r.auxiliaryOffset >= 0
    ensures StoredBytes(AllExtents(records)) <= fileLength
  {
    var es := AllExtents(records);
    RangesNonempty(es, fileLength, alignment);
    forall r | r in RangesOf(es) ensures 0 <= r.start {
      OffsetsKept(records, Extent(r.start, r.end - r.start));
    }
    DisjointVolume(RangesOf(es), fileLength);
    VolumeIsStored(es);
  }

  lemma {:induction false} OffsetsKept(records: seq<TensorRecord>, e: Extent)
    requires e in AllExtents(records)
    requires forall r :: r in records ==> r.dataOffset >= 0 && r.auxiliaryOffset >= 0
    ensures e.offset >= 0
  {
    var init, last := records[..|records| - 1], records[|records| - 1];
    assert last in records && forall r :: r in init ==> r in records;
    if e in AllExtents(init) {
      OffsetsKept(init, e);
    }
  }

  // ------------------------------------------------- independence of order

  lemma {:induction false} RangesConcat(a: seq<Extent>, b: seq<Extent>)
    ensures RangesOf(a + b) == RangesOf(a) + RangesOf(b)
  {
    if b == [] {
      assert a + b == a;
    } else {
      assert (a + b)[..|a + b| - 1] == a + b[..|b| - 1];
      RangesConcat(a, b[..|b| - 1]);
    }
  }

  lemma {:induction false} ExtentsConcat(a: seq<TensorRecord>, b: seq<TensorRecord>)
    ensures AllExtents(a + b) == AllExtents(a) + AllExtents(b)
  {
    if b == [] {
      assert a + b == a;
    } else {
      assert (a + b)[..|a + b| - 1] == a + b[..|b| - 1];
      ExtentsConcat(a, b[..|b| - 1]);
    }
  }

  lemma {:induction false} Parts(a: seq<TensorRecord>, b: seq<TensorRecord>)
    ensures multiset(AllExtents(a + b)) == multiset(AllExtents(a)) + multiset(AllExtents(b))
    ensures multiset(RangesOf(AllExtents(a + b))) ==
              multiset(RangesOf(AllExtents(a))) + multiset(RangesOf(AllExtents(b)))
  {
    ExtentsConcat(a, b);
    RangesConcat(AllExtents(a), AllExtents(b));
  }

  /** A list with `x` somewhere inside, split there. */
  lemma {:induction false} SplitAt(q: seq<TensorRecord>, x: TensorRecord) returns (a: seq<TensorRecord>, b: seq<TensorRecord>)
    requires x in multiset(q)
    ensures q == (a + [x]) + b
    ensures multiset(a + b) == multiset(q) - multiset{x}
  {
    var k :| 0 <= k < |q| && q[k] == x;
    a, b := q[..k], q[k + 1..];
    assert q == (a + [x]) + b;
  }

  lemma {:induction false} PermutedExtents(p: seq<TensorRecord>, q: seq<TensorRecord>)
    requires multiset(p) == multiset(q)
    ensures multiset(AllExtents(p)) == multiset(AllExtents(q))
    ensures multiset(RangesOf(AllExtents(p))) == multiset(RangesOf(AllExtents(q)))
  {
    hide AllExtents, RangesOf;
    if p == [] {
      assert |multiset(q)| == 0;
      assert q == [];
    } else {
      var x, t := p[0], p[1..];
      assert p == [x] + t;
      assert x in multiset(p);
      var a, b := SplitAt(q, x);
      PermutedExtents(t, a + b);
      Parts([x], t);
      Parts(a + [x], b);
      Parts(a, [x]);
      Parts(a, b);
    }
  }

  /** Acceptance does not depend on the order of the records. */
  lemma {:induction false} OrderIrrelevant(p: seq<TensorRecord>, q: seq<TensorRecord>, fileLength: int, alignment: int)
    requires alignment > 0 && multiset(p) == multiset(q)
    ensures GoodLayout(p, fileLength, alignment) <==> GoodLayout(q, fileLength, alignment)
  {
    PermutedExtents(p, q);
    var rp, rq := RangesOf(AllExtents(p)), RangesOf(AllExtents(q));
    forall e ensures e in AllExtents(p) <==> e in AllExtents(q) {
      assert e in multiset(AllExtents(p)) <==> e in multiset(AllExtents(q));
    }
    SortPermutes(rp);
    SortPermutes(rq);
    SortedUnique(Sort(rp), Sort(rq));
    ApartSort(rp);
    ApartSort(rq);
  }

  // --------------------------------------------- acceptance, field by field

  predicate Holds(e: Extent, b: int) {
    e.offset <= b < e.offset + e.length
  }

  /** Byte `b` lies in the data, or in the auxiliary data, of a tensor. */
  predicate InData(r: TensorRecord, b: int) {
    r.dataOffset <= b < r.dataOffset + r.dataLength
  }

  predicate InAuxiliary(r: TensorRecord, b: int) {
    r.auxiliaryOffset <= b < r.auxiliaryOffset + r.auxiliaryLength
  }

  predicate Stores(r: TensorRecord, b: int) {
    InData(r, b) || InAuxiliary(r, b)
  }

  /** No byte lies in both. */
  ghost predicate Disjoint(a: Extent, b: Extent) {
    forall x: int :: Holds(a, x) ==> !Holds(b, x)
  }

  ghost predicate AllDisjoint(es: seq<Extent>) {
    forall p, q :: 0 <= p < q < |es| ==> Disjoint(es[p], es[q])
  }

  ghost predicate NoneMeets(es: seq<Extent>, last: Extent) {
    forall p :: 0 <= p < |es| ==> Disjoint(es[p], last)
  }

  ghost predicate AllApart(s: seq<Range>, last: Range) {
    forall x :: x in s ==> Apart(x, last)
  }

  function RangeFor(e: Extent): Range {
    Range(e.offset, e.offset + e.length)
  }

  lemma {:induction false} DisjointIsApart(a: Extent, b: Extent)
    requires a.length > 0 && b.length > 0
    ensures Disjoint(a, b) <==> Apart(RangeFor(a), RangeFor(b))
  {
    var x := if a.offset < b.offset then b.offset else a.offset;
    if Disjoint(a, b) {
      assert !Holds(a, x) || !Holds(b, x);
    }
  }

  lemma EmptyIsDisjoint(a: Extent, b: Extent)
    requires a.length == 0 || b.length == 0
    ensures Disjoint(a, b)
  {
  }

  lemma {:induction false} DisjointSnoc(es: seq<Extent>, last: Extent)
    ensures AllDisjoint(es + [last]) <==> AllDisjoint(es) && NoneMeets(es, last)
  {
    hide Disjoint;
    var t := es + [last];
    if AllDisjoint(t) {
      forall p, q | 0 <= p < q < |es| ensures Disjoint(es[p], es[q]) {
        assert Disjoint(t[p], t[q]);
      }
      forall p | 0 <= p < |es| ensures Disjoint(es[p], last) {
        assert Disjoint(t[p], t[|es|]);
      }
    }
  }

  lemma {:induction false} ApartSnoc(s: seq<Range>, r: Range)
    ensures PairwiseApart(s + [r]) <==> PairwiseApart(s) && AllApart(s, r)
  {
    hide Apart;
    var t := s + [r];
    if PairwiseApart(t) {
      forall i, j | 0 <= i < j < |s| ensures Apart(s[i], s[j]) {
        assert Apart(t[i], t[j]);
      }
      forall x | x in s ensures Apart(x, r) {
        var i :| 0 <= i < |s| && s[i] == x;
        assert Apart(t[i], t[|s|]);
      }
    }
    if PairwiseApart(s) && AllApart(s, r) {
      forall i, j | 0 <= i < j < |t| ensures Apart(t[i], t[j]) {
        assert t[i] == s[i];
        assert s[i] in s;
      }
    }
  }

  /** Against one more extent: range by range, or extent by extent. */
  lemma {:induction false} LastApart(es: seq<Extent>, last: Extent)
    requires last.length > 0 && forall e :: e in es ==> e.length >= 0
    ensures AllApart(RangesOf(es), RangeFor(last)) <==> NoneMeets(es, last)
  {
    hide Apart, Disjoint;
    if es != [] {
      var init, e := es[..|es| - 1], es[|es| - 1];
      assert es == init + [e];
      LastApart(init, last);
      if e.length > 0 {
        DisjointIsApart(e, last);
      } else {
        EmptyIsDisjoint(e, last);
      }
      NoneMeetsSnoc(init, e, last);
    }
  }

  lemma {:induction false} NoneMeetsSnoc(es: seq<Extent>, e: Extent, last: Extent)
    ensures NoneMeets(es + [e], last) <==> NoneMeets(es, last) && Disjoint(e, last)
  {
    hide Disjoint;
    var t := es + [e];
    if NoneMeets(t, last) {
      forall p | 0 <= p < |es| ensures Disjoint(es[p], last) {
        assert Disjoint(t[p], last);
      }
      assert Disjoint(t[|es|], last);
    }
  }

  lemma {:induction false} EmptyMeetsNone(es: seq<Extent>, last: Extent)
    requires last.length == 0
    ensures NoneMeets(es, last)
  {
    forall p | 0 <= p < |es| ensures Disjoint(es[p], last) {
      EmptyIsDisjoint(es[p], last);
    }
  }

  lemma NothingApart()
    ensures PairwiseApart([]) && AllDisjoint([])
  {
  }

  /** Over all extents: range by range, or extent by extent. */
  lemma {:induction false} ApartIsDisjoint(es: seq<Extent>)
    requires forall e :: e in es ==> e.length >= 0
    ensures PairwiseApart(RangesOf(es)) <==> AllDisjoint(es)
  {
    if es != [] {
      var init, last := es[..|es| - 1], es[|es| - 1];
      assert es == init + [last];
      ApartIsDisjoint(init);
      RangesStep(init, last);
      hide Apart, PairwiseApart, Disjoint, AllDisjoint, NoneMeets, AllApart;
      DisjointSnoc(init, last);
      if last.length > 0 {
        ApartSnoc(RangesOf(init), RangeFor(last));
        LastApart(init, last);
        assert RangesOf(es) == RangesOf(init) + [RangeFor(last)];
      } else {
        EmptyMeetsNone(init, last);
        assert RangesOf(es) == RangesOf(init);
      }
    } else {
      NothingApart();
    }
  }

  lemma {:induction false} ExtentsOfRecord(records: seq<TensorRecord>, i: nat)
    requires i < |records|
    ensures |AllExtents(records)| == 2 * |records|
    ensures AllExtents(records)[2 * i] == Extent(records[i].dataOffset, records[i].dataLength)
    ensures AllExtents(records)[2 * i + 1] == Extent(records[i].auxiliaryOffset, records[i].auxiliaryLength)
  {
    var n := |records| - 1;
    var init := records[..n];
    if i < n {
      ExtentsOfRecord(init, i);
    } else if n > 0 {
      ExtentsOfRecord(init, 0);
    }
    assert |AllExtents(init)| == 2 * n;
    assert AllExtents(records) == AllExtents(init) + ExtentsOf(records[n]);
  }

  lemma {:induction false} ExtentsByRecord(records: seq<TensorRecord>)
    ensures |AllExtents(records)| == 2 * |records|
    ensures forall i :: 0 <= i < |records| ==>
              && AllExtents(records)[2 * i] == Extent(records[i].dataOffset, records[i].dataLength)
              && AllExtents(records)[2 * i + 1] == Extent(records[i].auxiliaryOffset, records[i].auxiliaryLength)
  {
    if records != [] {
      ExtentsOfRecord(records, 0);
    }
    forall i | 0 <= i < |records|
      ensures AllExtents(records)[2 * i] == Extent(records[i].dataOffset, records[i].dataLength)
      ensures AllExtents(records)[2 * i + 1] == Extent(records[i].auxiliaryOffset, records[i].auxiliaryLength)
    {
      ExtentsOfRecord(records, i);
    }
  }

  /** An extent of a record is at 0 when empty; otherwise aligned and inside the file. */
  predicate FieldsPlaced(offset: int, length: int, fileLength: int, alignment: int)
    requires alignment > 0
  {
    && (length == 0 ==> offset == 0)
    && (length != 0 ==> length > 0 && offset % alignment == 0 && offset + length <= fileLength)
  }

  /** Both extents of every record are placed. */
  ghost predicate BothPlaced(records: seq<TensorRecord>, fileLength: int, alignment: int)
    requires alignment > 0
  {
    forall i :: 0 <= i < |records| ==>
      && FieldsPlaced(records[i].dataOffset, records[i].dataLength, fileLength, alignment)
      && FieldsPlaced(records[i].auxiliaryOffset, records[i].auxiliaryLength, fileLength, alignment)
  }

  /** No tensor's data meets its own auxiliary data, and no two tensors share a byte. */
  ghost predicate NothingShared(records: seq<TensorRecord>) {
    && (forall i, b :: 0 <= i < |records| ==> !(InData(records[i], b) && InAuxiliary(records[i], b)))
    && forall i, j, b :: 0 <= i < j < |records| && Stores(records[i], b) ==> !Stores(records[j], b)
  }

  /** A layout is accepted exactly when every data and every auxiliary extent is placed, no
      tensor's data meets its own auxiliary data, and no two tensors share a byte. */
  lemma {:induction false} LayoutByFields(records: seq<TensorRecord>, fileLength: int, alignment: int)
    requires alignment > 0
    ensures GoodLayout(records, fileLength, alignment) <==>
              && (forall i :: 0 <= i < |records| ==>
                    && FieldsPlaced(records[i].dataOffset, records[i].dataLength, fileLength, alignment)
                    && FieldsPlaced(records[i].auxiliaryOffset, records[i].auxiliaryLength, fileLength, alignment))
              && (forall i, b :: 0 <= i < |records| ==> !(InData(records[i], b) && InAuxiliary(records[i], b)))
              && forall i, j, b :: 0 <= i < j < |records| && Stores(records[i], b) ==> !Stores(records[j], b)
  {
    var es := AllExtents(records);
    PlacedByFields(records, fileLength, alignment);
    hide AllExtents, AllDisjoint, PairwiseApart;
    if forall e :: e in es ==> Placed(e, fileLength, alignment) {
      ApartIsDisjoint(es);
      SharedByFields(records);
    }
    assert GoodLayout(records, fileLength, alignment) <==> BothPlaced(records, fileLength, alignment) && NothingShared(records);
  }

  lemma PlacedIsFields(e: Extent, fileLength: int, alignment: int)
    requires alignment > 0
    ensures Placed(e, fileLength, alignment) <==> FieldsPlaced(e.offset, e.length, fileLength, alignment)
  {
  }

  lemma {:induction false} PlacedByFields(records: seq<TensorRecord>, fileLength: int, alignment: int)
    requires alignment > 0
    ensures (forall e :: e in AllExtents(records) ==> Placed(e, fileLength, alignment)) <==> BothPlaced(records, fileLength, alignment)
  {
    ExtentsByRecord(records);
    hide AllExtents, Placed, FieldsPlaced;
    var es := AllExtents(records);
    forall e | e in es
      ensures Placed(e, fileLength, alignment) <==> FieldsPlaced(e.offset, e.length, fileLength, alignment)
    {
      PlacedIsFields(e, fileLength, alignment);
    }
    if forall e :: e in es ==> Placed(e, fileLength, alignment) {
      forall i | 0 <= i < |records|
        ensures FieldsPlaced(records[i].dataOffset, records[i].dataLength, fileLength, alignment)
        ensures FieldsPlaced(records[i].auxiliaryOffset, records[i].auxiliaryLength, fileLength, alignment)
      {
        assert es[2 * i] in es && es[2 * i + 1] in es;
      }
    }
    if BothPlaced(records, fileLength, alignment) {
      forall e | e in es ensures Placed(e, fileLength, alignment) {
        var p :| 0 <= p < |es| && es[p] == e;
        var i := p / 2;
        var r := records[i];
        assert p == 2 * i || p == 2 * i + 1;
      }
    }
  }

  /** Extents 2i and 2i + 1 are those of record i. */
  lemma {:induction false} OwnerOf(records: seq<TensorRecord>, p: int, b: int)
    requires 0 <= p < 2 * |records|
    ensures |AllExtents(records)| == 2 * |records|
    ensures p % 2 == 0 ==> (Holds(AllExtents(records)[p], b) <==> InData(records[p / 2], b))
    ensures p % 2 == 1 ==> (Holds(AllExtents(records)[p], b) <==> InAuxiliary(records[p / 2], b))
  {
    ExtentsByRecord(records);
    hide AllExtents;
    var i := p / 2;
    assert p == 2 * i || p == 2 * i + 1;
  }

  lemma {:induction false} NothingSharedIn(records: seq<TensorRecord>)
    requires AllDisjoint(AllExtents(records))
    ensures NothingShared(records)
  {
    var es := AllExtents(records);
    ExtentsByRecord(records);
    hide AllExtents, Holds, InData, InAuxiliary;
    forall i, b | 0 <= i < |records| ensures !(InData(records[i], b) && InAuxiliary(records[i], b)) {
      assert Disjoint(es[2 * i], es[2 * i + 1]);
      OwnerOf(records, 2 * i, b);
      OwnerOf(records, 2 * i + 1, b);
    }
    forall i, j, b | 0 <= i < j < |records| && Stores(records[i], b) ensures !Stores(records[j], b) {
      OwnerOf(records, 2 * i, b);
      OwnerOf(records, 2 * i + 1, b);
      OwnerOf(records, 2 * j, b);
      OwnerOf(records, 2 * j + 1, b);
      assert Disjoint(es[2 * i], es[2 * j]) && Disjoint(es[2 * i], es[2 * j + 1]);
      assert Disjoint(es[2 * i + 1], es[2 * j]) && Disjoint(es[2 * i + 1], es[2 * j + 1]);
    }
  }

  lemma {:induction false} SharedByFields(records: seq<TensorRecord>)
    ensures AllDisjoint(AllExtents(records)) <==> NothingShared(records)
  {
    var es := AllExtents(records);
    ExtentsByRecord(records);
    if AllDisjoint(es) {
      NothingSharedIn(records);
    }
    hide AllExtents, Holds, InData, InAuxiliary;
    if NothingShared(records) {
      forall p, q | 0 <= p < q < |es| ensures Disjoint(es[p], es[q]) {
        forall b: int | Holds(es[p], b) ensures !Holds(es[q], b) {
          OwnerOf(records, p, b);
          OwnerOf(records, q, b);
          assert Stores(records[p / 2], b);
        }
      }
    }
  }
}
