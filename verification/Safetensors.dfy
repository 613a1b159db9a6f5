// The safetensors boundary of the converter: header validation, shard
// inspection and bounded reads (converter/k3x_converter/safetensors_reader.py).
//
// A header is modelled after JSON decoding, as its members in text order.

module Safetensors {
  import opened Arithmetic
  import opened Format
  import opened Intervals
  import opened Streams
  import opened Struct
  import opened Wrappers

  /** A header member: an object with exactly the three tensor keys and integers
      where integers belong, an object of strings only, or anything else. */
  datatype HeaderValue =
    | Tensor(dtype: string, shape: seq<int>, start: int, end: int)
    | StringMap
    | Other

  type Header = seq<(string, HeaderValue)>

  datatype TensorMetadata = TensorMetadata(name: string, dtype: string, shape: seq<int>, offset: int, length: int)

  const METADATA := "__metadata__"
  const MAX_HEADER_BYTES := 100_000_000

  function KnownDtypeBytes(dtype: string): Option<int> {
    if dtype == "F32" then Some(4) else if dtype == "BF16" then Some(2) else if dtype == "U8" then Some(1) else Option.None
  }

  /** The byte length of a shape of a known dtype, refused as soon as a partial
      product cannot fit the data any more. */
  method KnownDtypeLength(dtype: string, shape: seq<int>, dataBytes: nat) returns (r: Result<Option<int>>)
    requires forall d :: d in shape ==> d >= 0
    ensures KnownDtypeBytes(dtype).None? ==> r == Ok(Option.None)
    ensures KnownDtypeBytes(dtype).Some? ==>
              var length := KnownDtypeBytes(dtype).value * Product(shape);
              && (r.Err? <==> shape != [] && length > dataBytes)
              && (r.Ok? ==> r.value == Some(length))
              && (r.Err? ==> r.error == InvalidSourceExtent)
    ensures dtype == "F32" && r.Ok? ==> r.value == Some(4 * Product(shape))
    ensures dtype == "BF16" && r.Ok? ==> r.value == Some(2 * Product(shape))
    ensures dtype == "U8" && r.Ok? ==> r.value == Some(Product(shape))
  {
    hide Product;
    var item := KnownDtypeBytes(dtype);
    if item.None? {
      return Ok(Option.None);
    }
    if 0 in shape {
      ProductZero(shape);
      return Ok(Some(0));
    }
    var length := item.value;
    PartialStart(item.value, shape);
    for i := 0 to |shape|
      invariant length == Partial(item.value, shape, i)
      invariant i > 0 ==> length <= dataBytes
    {
      var dimension := shape[i];
      assert dimension in shape;
      PartialStep(item.value, shape, i, dataBytes);
      if length > dataBytes / dimension {
        PartialGrows(item.value, shape, i + 1);
        return Err(InvalidSourceExtent);
      }
      length := length * dimension;
    }
    assert shape[..|shape|] == shape;
    return Ok(Some(length));
  }

  /** An element of four bytes passes the length check against three bytes of data. */
  method ScalarPasses() returns (r: Result<Option<int>>)
    ensures r == Ok(Some(4))
  {
    assert KnownDtypeBytes("F32") == Some(4) && Product([]) == 1;
    r := KnownDtypeLength("F32", [], 3);
  }

  /** Bytes of the first `i` dimensions of a shape. */
  function Partial(item: int, shape: seq<int>, i: nat): int
    requires i <= |shape|
  {
    item * Product(shape[..i])
  }

  lemma {:induction false} PartialStart(item: int, shape: seq<int>)
    ensures Partial(item, shape, 0) == item
  {
    assert shape[..0] == [];
  }

  lemma {:induction false} PartialStep(item: int, shape: seq<int>, i: nat, dataBytes: nat)
    requires i < |shape| && shape[i] >= 1
    ensures Partial(item, shape, i + 1) == Partial(item, shape, i) * shape[i]
    ensures Partial(item, shape, i) > dataBytes / shape[i] <==> Partial(item, shape, i + 1) > dataBytes
  {
    hide Product;
    ProductStep(shape, i);
    var p := Product(shape[..i]);
    assert item * (p * shape[i]) == (item * p) * shape[i];
    ExceedsQuotient(item * p, dataBytes, shape[i]);
  }

  lemma {:induction false} PartialGrows(item: int, shape: seq<int>, i: nat)
    requires item > 0 && i <= |shape| && forall d :: d in shape ==> d >= 1
    ensures Partial(item, shape, i) <= item * Product(shape)
  {
    ProductGrows(shape, i);
    assert item * Product(shape) - item * Product(shape[..i]) == item * (Product(shape) - Product(shape[..i]));
    SmallProduct(item, Product(shape) - Product(shape[..i]));
  }

  // --------------------------------------------------------------- header

  predicate TensorName(name: string) {
    name != "" && !("__" <= name)
  }

  /** What one member must satisfy on its own. */
  ghost predicate WellFormed(name: string, value: HeaderValue, dataBytes: int) {
    if name == METADATA then value.StringMap? else
      && TensorName(name)
      && value.Tensor?
      && (forall d :: d in value.shape ==> d >= 0)
      && 0 <= value.start <= value.end <= dataBytes
      && (KnownDtypeBytes(value.dtype).Some? ==>
            value.end - value.start == KnownDtypeBytes(value.dtype).value * Product(value.shape))
  }

  ghost predicate DistinctNames(header: Header) {
    forall i, j :: 0 <= i < j < |header| ==> header[i].0 != header[j].0
  }

  /** The nonempty data ranges, in header order. */
  function DataRanges(header: Header): seq<Range> {
    if header == [] then [] else
      DataRanges(header[..|header| - 1]) + DataRange(header[|header| - 1].1)
  }

  function DataRange(value: HeaderValue): seq<Range> {
    if value.Tensor? && value.start < value.end then [Range(value.start, value.end)] else []
  }

  function TensorsOf(header: Header, dataStart: int): map<string, TensorMetadata> {
    if header == [] then map[] else
      var (name, value) := header[|header| - 1];
      var tensors := TensorsOf(header[..|header| - 1], dataStart);
      if value.Tensor? then tensors[name := MetadataOf(name, value, dataStart)] else tensors
  }

  function MetadataOf(name: string, value: HeaderValue, dataStart: int): TensorMetadata
    requires value.Tensor?
  {
    TensorMetadata(name, value.dtype, value.shape, dataStart + value.start, value.end - value.start)
  }

  /** The header is accepted: its members are sound and its tensors own every
      byte of the data exactly once. */
  ghost predicate Accepts(header: Header, dataStart: int, fileSize: int) {
    && 0 <= dataStart <= fileSize
    && DistinctNames(header)
    && (forall i :: 0 <= i < |header| ==> WellFormed(header[i].0, header[i].1, fileSize - dataStart))
    && Tiles(DataRanges(header), 0, fileSize - dataStart)
  }

  /** The checks on one member. */
  method CheckMember(name: string, value: HeaderValue, dataBytes: nat) returns (r: Result<()>)
    ensures r.Ok? <==> WellFormed(name, value, dataBytes)
  {
    if name == METADATA {
      if !value.StringMap? {
        return Err(InvalidSourceHeader);
      }
      return Ok(());
    }
    if name == "" || "__" <= name || !value.Tensor? {
      return Err(InvalidSourceHeader);
    }
    if exists d :: d in value.shape && d < 0 {
      return Err(InvalidSourceHeader);
    }
    if value.start < 0 || value.end < value.start || value.end > dataBytes {
      return Err(InvalidSourceExtent);
    }
    var known := KnownDtypeLength(value.dtype, value.shape, dataBytes);
    if known.Err? {
      return Err(known.error);
    }
    if known.value.Some? && value.end - value.start != known.value.value {
      return Err(InvalidSourceExtent);
    }
    return Ok(());
  }

  /** The cursor sweep over the sorted ranges. */
  method SweepContiguous(ranges: seq<Range>, dataBytes: int) returns (r: Result<()>)
    ensures r.Ok? <==> Contiguous(ranges, 0, dataBytes)
  {
    var cursor := 0;
    for i := 0 to |ranges|
      invariant Contiguous(ranges, 0, dataBytes) <==> Contiguous(ranges[i..], cursor, dataBytes)
    {
      assert ranges[i..][1..] == ranges[i + 1..];
      if ranges[i].start < cursor {
        return Err(OverlappingSourceExtent);
      }
      if ranges[i].start > cursor {
        return Err(InvalidSourceExtent);
      }
      cursor := ranges[i].end;
    }
    return if cursor == dataBytes then Ok(()) else Err(InvalidSourceExtent);
  }

  lemma {:induction false} DataRangesNonempty(header: Header)
    ensures Nonempty(DataRanges(header))
  {
    if header != [] {
      DataRangesNonempty(header[..|header| - 1]);
    }
  }

  lemma {:induction false} TensorsStep(header: Header, i: nat, dataStart: int)
    requires i < |header|
    ensures DataRanges(header[..i + 1]) == DataRanges(header[..i]) + DataRange(header[i].1)
    ensures TensorsOf(header[..i + 1], dataStart) ==
              if header[i].1.Tensor?
              then TensorsOf(header[..i], dataStart)[header[i].0 := MetadataOf(header[i].0, header[i].1, dataStart)]
              else TensorsOf(header[..i], dataStart)
  {
    assert header[..i + 1][..i] == header[..i];
  }

  lemma NoMembers(header: Header, dataStart: int)
    ensures DataRanges(header[..0]) == [] && TensorsOf(header[..0], dataStart) == map[]
  {
  }

  /** The first loop: check every member and collect the tensors and their ranges. */
  method CollectMembers(header: Header, dataStart: int, dataBytes: nat)
    returns (r: Result<(map<string, TensorMetadata>, seq<Range>)>)
    ensures r.Ok? <==> forall i :: 0 <= i < |header| ==> WellFormed(header[i].0, header[i].1, dataBytes)
    ensures r.Ok? ==> r.value == (TensorsOf(header, dataStart), DataRanges(header))
  {
    hide WellFormed, DataRanges, TensorsOf, MetadataOf;
    NoMembers(header, dataStart);
    var result: map<string, TensorMetadata> := map[];
    var ranges: seq<Range> := [];
    for i := 0 to |header|
      invariant forall k :: 0 <= k < i ==> WellFormed(header[k].0, header[k].1, dataBytes)
      invariant ranges == DataRanges(header[..i])
      invariant result == TensorsOf(header[..i], dataStart)
    {
      TensorsStep(header, i, dataStart);
      var (name, value) := header[i];
      var _ :- CheckMember(name, value, dataBytes);
      if value.Tensor? {
        if value.end > value.start {
          ranges := ranges + [Range(value.start, value.end)];
        }
        result := result[name := MetadataOf(name, value, dataStart)];
      }
    }
    assert header[..|header|] == header;
    return Ok((result, ranges));
  }

  method ParseHeader(header: Header, dataStart: int, fileSize: int) returns (r: Result<map<string, TensorMetadata>>)
    ensures r.Ok? <==> Accepts(header, dataStart, fileSize)
    ensures r.Ok? ==> r.value == TensorsOf(header, dataStart)
  {
    if dataStart < 0 || fileSize < dataStart {
      return Err(InvalidSourceHeader);
    }
    if exists i, j :: 0 <= i < j < |header| && header[i].0 == header[j].0 {
      return Err(InvalidSourceHeader);
    }
    var dataBytes := fileSize - dataStart;
    var collected :- CollectMembers(header, dataStart, dataBytes);
    var ranges := collected.1;
    DataRangesNonempty(header);
    SweepIsTiling(ranges, dataBytes);
    ranges := Sort(ranges);
    var _ :- SweepContiguous(ranges, dataBytes);
    return Ok(collected.0);
  }

  /** The header's tensors are exactly its tensor members. */
  lemma {:induction false} TensorsAre(header: Header, dataStart: int)
    requires DistinctNames(header)
    ensures forall i :: 0 <= i < |header| && header[i].1.Tensor? ==>
              && header[i].0 in TensorsOf(header, dataStart)
              && TensorsOf(header, dataStart)[header[i].0] == MetadataOf(header[i].0, header[i].1, dataStart)
    ensures forall i :: 0 <= i < |header| && header[i].1.Tensor? ==>
              var t := TensorsOf(header, dataStart)[header[i].0];
              && t.name == header[i].0 && t.dtype == header[i].1.dtype && t.shape == header[i].1.shape
              && t.offset == dataStart + header[i].1.start && t.length == header[i].1.end - header[i].1.start
    ensures forall name :: name in TensorsOf(header, dataStart) ==>
              exists i :: 0 <= i < |header| && header[i].0 == name && header[i].1.Tensor?
  {
    if header != [] {
      hide TensorsOf, DataRanges;
      var n := |header| - 1;
      var init := header[..n];
      TensorsAre(init, dataStart);
      TensorsStep(header, n, dataStart);
      assert header[..n + 1] == header;
      forall i | 0 <= i < |header| && header[i].1.Tensor?
        ensures header[i].0 in TensorsOf(header, dataStart)
        ensures TensorsOf(header, dataStart)[header[i].0] == MetadataOf(header[i].0, header[i].1, dataStart)
      {
        if i < n {
          assert init[i] == header[i];
        }
      }
      forall name | name in TensorsOf(header, dataStart)
        ensures exists i :: 0 <= i < |header| && header[i].0 == name && header[i].1.Tensor?
      {
        if name in TensorsOf(init, dataStart) {
          var i :| 0 <= i < |init| && init[i].0 == name && init[i].1.Tensor?;
          assert header[i].0 == name;
        }
      }
    }
  }

  /** Where the range of member `i` sits among the data ranges. */
  lemma {:induction false} RangeAt(header: Header, i: nat)
    requires i < |header| && DataRange(header[i].1) != []
    ensures var p := |DataRanges(header[..i])|;
            p < |DataRanges(header)| && [DataRanges(header)[p]] == DataRange(header[i].1)
    decreases |header|
  {
    var n := |header| - 1;
    if i < n {
      RangeAt(header[..n], i);
      assert header[..n][..i] == header[..i];
    }
  }

  lemma {:induction false} RangesGrow(header: Header, i: nat)
    requires i < |header| && DataRange(header[i].1) != []
    ensures |DataRanges(header[..i])| < |DataRanges(header)|
  {
    RangeAt(header, i);
  }

  lemma {:induction false} RangeOwner(header: Header, r: Range) returns (i: nat)
    requires r in DataRanges(header)
    ensures i < |header| && DataRange(header[i].1) == [r]
  {
    var n := |header| - 1;
    if r in DataRange(header[n].1) {
      i := n;
    } else {
      i := RangeOwner(header[..n], r);
    }
  }

  // ------------------------------------- a header is a set of its members

  lemma {:induction false} RangesParts(a: Header, b: Header)
    ensures DataRanges(a + b) == DataRanges(a) + DataRanges(b)
  {
    if b == [] {
      assert a + b == a;
    } else {
      assert (a + b)[..|a + b| - 1] == a + b[..|b| - 1];
      RangesParts(a, b[..|b| - 1]);
    }
  }

  lemma {:induction false} SplitHeader(h: Header, x: (string, HeaderValue)) returns (a: Header, b: Header)
    requires x in multiset(h)
    ensures h == (a + [x]) + b
    ensures multiset(a + b) == multiset(h) - multiset{x}
  {
    var k :| 0 <= k < |h| && h[k] == x;
    a, b := h[..k], h[k + 1..];
    assert h == (a + [x]) + b;
  }

  lemma {:induction false} DistinctWithout(a: Header, x: (string, HeaderValue), b: Header)
    requires DistinctNames((a + [x]) + b)
    ensures DistinctNames(a + b) && forall y :: y in a + b ==> y.0 != x.0
  {
    var h := (a + [x]) + b;
    forall i, j | 0 <= i < j < |a + b| ensures (a + b)[i].0 != (a + b)[j].0 {
      var i', j' := if i < |a| then i else i + 1, if j < |a| then j else j + 1;
      assert (a + b)[i] == h[i'] && (a + b)[j] == h[j'];
    }
    forall i | 0 <= i < |a + b| ensures (a + b)[i].0 != x.0 {
      assert (a + b)[i] == h[if i < |a| then i else i + 1] && h[|a|] == x;
    }
  }

  /** Without its first member, a header is a permutation of the rest of the other. */
  lemma {:induction false} PermutedTail(p: Header, h: Header) returns (a: Header, b: Header)
    requires p != [] && multiset(p) == multiset(h)
    ensures h == (a + [p[0]]) + b && multiset(p[1..]) == multiset(a + b)
  {
    assert p == [p[0]] + p[1..];
    assert p[0] in multiset(p);
    a, b := SplitHeader(h, p[0]);
  }

  lemma {:induction false} SameMembersLength(p: Header, h: Header)
    requires multiset(p) == multiset(h)
    ensures |p| == |h|
  {
    assert |multiset(p)| == |p| && |multiset(h)| == |h|;
  }

  lemma {:induction false} PermutedRanges(p: Header, h: Header)
    requires multiset(p) == multiset(h)
    ensures multiset(DataRanges(p)) == multiset(DataRanges(h))
  {
    hide DataRanges;
    SameMembersLength(p, h);
    if p != [] {
      var x, t := p[0], p[1..];
      assert p == [x] + t;
      var a, b := PermutedTail(p, h);
      PermutedRanges(t, a + b);
      RangesParts([x], t);
      RangesParts(a + [x], b);
      RangesParts(a, [x]);
      RangesParts(a, b);
    }
  }

  lemma {:induction false} PermutedNames(p: Header, h: Header)
    requires multiset(p) == multiset(h) && DistinctNames(h)
    ensures DistinctNames(p)
  {
    SameMembersLength(p, h);
    if p != [] {
      var x, t := p[0], p[1..];
      var a, b := PermutedTail(p, h);
      DistinctWithout(a, x, b);
      PermutedNames(t, a + b);
      forall k | 0 <= k < |t| ensures t[k].0 != x.0 {
        assert t[k] in multiset(t);
        assert t[k] in multiset(a + b);
      }
      assert forall i :: 0 < i < |p| ==> p[i] == t[i - 1];
    }
  }

  /** The order of a header's members changes neither whether it is accepted nor
      the tensors it describes. */
  lemma {:induction false} OrderOfMembers(p: Header, h: Header, dataStart: int, fileSize: int)
    requires multiset(p) == multiset(h)
    ensures Accepts(p, dataStart, fileSize) ==> Accepts(h, dataStart, fileSize)
  {
    hide DataRanges, WellFormed, Tiles;
    PermutedRanges(p, h);
    if Accepts(p, dataStart, fileSize) {
      forall i | 0 <= i < |h| ensures WellFormed(h[i].0, h[i].1, fileSize - dataStart) {
        assert h[i] in multiset(p);
        var k :| 0 <= k < |p| && p[k] == h[i];
      }
      SamePartition(DataRanges(p), DataRanges(h), fileSize - dataStart);
      PermutedNames(h, p);
    }
  }

  lemma {:induction false} SamePartition(r: seq<Range>, s: seq<Range>, limit: int)
    requires multiset(r) == multiset(s) && Tiles(r, 0, limit)
    ensures Tiles(s, 0, limit)
  {
    SortPermutes(r);
    SortPermutes(s);
    SortedUnique(Sort(r), Sort(s));
    TilesSort(r, 0, limit);
    TilesSort(s, 0, limit);
  }

  lemma {:induction false} OrderOfTensors(p: Header, h: Header, dataStart: int)
    requires multiset(p) == multiset(h) && DistinctNames(h)
    ensures TensorsOf(p, dataStart) == TensorsOf(h, dataStart)
  {
    hide TensorsOf, DataRanges;
    PermutedNames(p, h);
    TensorsAre(p, dataStart);
    TensorsAre(h, dataStart);
    var tp, th := TensorsOf(p, dataStart), TensorsOf(h, dataStart);
    forall name | name in tp ensures name in th && th[name] == tp[name] {
      var i :| 0 <= i < |p| && p[i].0 == name && p[i].1.Tensor?;
      assert p[i] in multiset(h);
      var k :| 0 <= k < |h| && h[k] == p[i];
    }
    forall name | name in th ensures name in tp {
      var i :| 0 <= i < |h| && h[i].0 == name && h[i].1.Tensor?;
      assert h[i] in multiset(p);
      var k :| 0 <= k < |p| && p[k] == h[i];
    }
  }

  predicate OwnsByte(t: TensorMetadata, b: int) {
    t.offset <= b < t.offset + t.length
  }

  /** In an accepted shard every data byte belongs to exactly one tensor. */
  lemma {:induction false} EveryByteOwnedOnce(header: Header, dataStart: int, fileSize: int, b: int)
    requires Accepts(header, dataStart, fileSize) && dataStart <= b < fileSize
    ensures exists name :: name in TensorsOf(header, dataStart) && OwnsByte(TensorsOf(header, dataStart)[name], b)
    ensures var tensors := TensorsOf(header, dataStart);
            forall m, n | m in tensors && n in tensors && OwnsByte(tensors[m], b) && OwnsByte(tensors[n], b) :: m == n
  {
    hide TensorsOf, DataRanges, WellFormed;
    var tensors, ranges := TensorsOf(header, dataStart), DataRanges(header);
    TensorsAre(header, dataStart);
    assert Covered(ranges, b - dataStart);
    var r :| r in ranges && Owns(r, b - dataStart);
    var i := RangeOwner(header, r);
    assert OwnsByte(tensors[header[i].0], b);
    forall m, n | m in tensors && n in tensors && OwnsByte(tensors[m], b) && OwnsByte(tensors[n], b)
      ensures m == n
    {
      var j :| 0 <= j < |header| && header[j].0 == m && header[j].1.Tensor?;
      var k :| 0 <= k < |header| && header[k].0 == n && header[k].1.Tensor?;
      if j < k {
        NoSharedByte(header, j, k, b - dataStart);
      } else if k < j {
        NoSharedByte(header, k, j, b - dataStart);
      }
    }
  }

  lemma {:induction false} NoSharedByte(header: Header, j: nat, k: nat, b: int)
    requires j < k < |header| && PairwiseApart(DataRanges(header))
    requires header[j].1.Tensor? && header[k].1.Tensor?
    ensures !(header[j].1.start <= b < header[j].1.end && header[k].1.start <= b < header[k].1.end)
  {
    if header[j].1.start < header[j].1.end && header[k].1.start < header[k].1.end {
      var ranges := DataRanges(header);
      var p, q := |DataRanges(header[..j])|, |DataRanges(header[..k])|;
      RangeAt(header, j);
      RangeAt(header, k);
      assert header[..k][..j] == header[..j];
      RangesGrow(header[..k], j);
      assert Apart(ranges[p], ranges[q]);
      assert ranges[p] == DataRange(header[j].1)[0] && ranges[q] == DataRange(header[k].1)[0];
    }
  }

  // ---------------------------------------------------------------- shards

  type JsonDecoder = Bytes -> Option<Header>

  /** Where the header of a shard ends, from its eight-byte length. */
  function HeaderLength(file: Bytes): (r: Result<nat>)
    ensures r.Ok? ==> 8 + r.value <= |file| && r.value <= MAX_HEADER_BYTES
  {
    if |file| < 8 then Err(TruncatedSourceShard)
    else if FromLittleEndian(file[..8]) > MAX_HEADER_BYTES then Err(InvalidSourceHeader)
    else if FromLittleEndian(file[..8]) > |file| - 8 then Err(InvalidSourceHeader)
    else Ok(FromLittleEndian(file[..8]))
  }

  /** The shard's header decodes and is accepted against the size of the file. */
  ghost predicate AcceptsShard(file: Bytes, decode: JsonDecoder) {
    && HeaderLength(file).Ok?
    && var n := HeaderLength(file).value;
       decode(file[8..8 + n]).Some? && Accepts(decode(file[8..8 + n]).value, 8 + n, |file|)
  }

  ghost function ShardTensors(file: Bytes, decode: JsonDecoder): map<string, TensorMetadata>
    requires AcceptsShard(file, decode)
  {
    var n := HeaderLength(file).value;
    TensorsOf(decode(file[8..8 + n]).value, 8 + n)
  }

  /** A shard is accepted exactly when its eight-byte length fits the limit and the file, its
      header decodes to members of different names, and every member is metadata of strings
      or a tensor inside the data, of the exact length where the dtype is known, so that
      the nonempty tensors tile the data. */
  lemma {:induction false} ShardByFields(file: Bytes, decode: JsonDecoder)
    ensures AcceptsShard(file, decode) <==>
            && |file| >= 8
            && var n := FromLittleEndian(file[..8]);
               && n <= 100_000_000 && 8 + n <= |file| && decode(file[8..8 + n]).Some?
               && var header, data := decode(file[8..8 + n]).value, |file| - (8 + n);
                  && (forall i, j :: 0 <= i < j < |header| ==> header[i].0 != header[j].0)
                  && (forall i :: 0 <= i < |header| && header[i].0 == METADATA ==> header[i].1.StringMap?)
                  && (forall i :: 0 <= i < |header| && header[i].0 != METADATA ==> TensorFits(header[i].0, header[i].1, data))
                  && Tiles(DataRanges(header), 0, data)
  {
    hide FromLittleEndian, DataRanges, Tiles;
    if |file| >= 8 && FromLittleEndian(file[..8]) <= 100_000_000 && 8 + FromLittleEndian(file[..8]) <= |file| {
      var n := FromLittleEndian(file[..8]);
      if decode(file[8..8 + n]).Some? {
        var header := decode(file[8..8 + n]).value;
        forall i | 0 <= i < |header|
          ensures WellFormed(header[i].0, header[i].1, |file| - (8 + n)) <==>
                  if header[i].0 == METADATA then header[i].1.StringMap?
                  else TensorFits(header[i].0, header[i].1, |file| - (8 + n))
        {
          WellFormedTensor(header[i].0, header[i].1, |file| - (8 + n));
        }
        hide WellFormed, TensorFits;
      }
    }
  }

  /** A named tensor with an extent inside the data; four bytes a value for F32, two for
      BF16, one for U8. */
  predicate TensorFits(name: string, value: HeaderValue, data: int) {
    && value.Tensor? && |name| > 0 && !(|name| >= 2 && name[0] == name[1] == '_')
    && (forall d :: d in value.shape ==> d >= 0)
    && 0 <= value.start && value.start <= value.end && value.end <= data
    && (value.dtype == "F32" ==> value.end == value.start + 4 * Product(value.shape))
    && (value.dtype == "BF16" ==> value.end == value.start + 2 * Product(value.shape))
    && (value.dtype == "U8" ==> value.end == value.start + Product(value.shape))
  }

  lemma {:induction false} WellFormedTensor(name: string, value: HeaderValue, data: int)
    ensures WellFormed(name, value, data) <==>
              if name == METADATA then value.StringMap? else TensorFits(name, value, data)
  {
    hide Product;
    assert "__" <= name <==> |name| >= 2 && name[0] == '_' && name[1] == '_';
  }

  method InspectShard(file: Bytes, decode: JsonDecoder) returns (r: Result<map<string, TensorMetadata>>)
    ensures r.Ok? <==> AcceptsShard(file, decode)
    ensures r.Ok? ==> r.value == ShardTensors(file, decode)
  {
    hide FromLittleEndian, Accepts, TensorsOf;
    var headerLength :- HeaderLength(file);
    var header := decode(file[8..8 + headerLength]);
    if header.None? {
      return Err(InvalidSourceHeader);
    }
    r := ParseHeader(header.value, 8 + headerLength, |file|);
  }

  lemma {:induction false} ConcatSnoc(items: seq<Bytes>, last: Bytes)
    ensures Concat(items + [last]) == Concat(items) + last
  {
    if items == [] {
      assert [] + [last] == [last] && Concat([last]) == last + Concat([]);
    } else {
      assert (items + [last])[1..] == items[1..] + [last];
      ConcatSnoc(items[1..], last);
    }
  }

  /** The chunks of a tensor: together its bytes, none empty, none above the bound. */
  method IterTensorChunks(file: Bytes, offset: nat, length: nat, chunkBytes: int)
    returns (chunks: seq<Bytes>, r: Result<()>)
    ensures chunkBytes <= 0 ==> r == Err(InvalidChunkSize) && chunks == []
    ensures forall c :: c in chunks ==> 0 < |c| <= chunkBytes
    ensures chunkBytes > 0 ==>
              if length == 0 || offset + length <= |file|
              then r == Ok(()) && (length == 0 ==> chunks == [])
                   && (length > 0 ==> Concat(chunks) == file[offset..offset + length])
              else r == Err(TruncatedSourceShard)
  {
    chunks := [];
    if chunkBytes <= 0 {
      return chunks, Err(InvalidChunkSize);
    }
    var stream := new ByteStream(file);
    stream.Seek(offset);
    var remaining := length;
    while remaining != 0
      invariant 0 <= remaining <= length && stream.position == offset + (length - remaining)
      invariant stream.data == file
      invariant remaining < length ==> stream.position <= |file|
      invariant offset <= |file| ==> stream.position <= |file| && Concat(chunks) == file[offset..stream.position]
      invariant forall c :: c in chunks ==> 0 < |c| <= chunkBytes
      invariant length == 0 ==> chunks == []
    {
      var chunk := stream.Read(Min(chunkBytes, remaining));
      if chunk == [] {
        return chunks, Err(TruncatedSourceShard);
      }
      ConcatSnoc(chunks, chunk);
      remaining := remaining - |chunk|;
      chunks := chunks + [chunk];
    }
    return chunks, Ok(());
  }
}
