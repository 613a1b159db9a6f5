// Assembling one safetensors shard out of pieces of range objects
// (assemble_official_moe_source, converter/k3x_converter/official_moe.py) and
// why reading it back returns those pieces.

module MoeSource {
  import opened Arithmetic
  import opened Format
  import opened Intervals
  import M = Manifest
  import opened RangeObject
  import opened Safetensors
  import opened Streams
  import opened Struct
  import opened Wrappers

  type Objects = map<DataName, Bytes>
  type JsonEncoder = Header -> Bytes

  /** One tensor of the shard and where its bytes come from. */
  datatype SourceTensor = SourceTensor(
    name: string, dtype: string, shape: seq<int>,
    objectPath: DataName, objectOffset: int, length: int, packedShape: Option<seq<int>>)

  ghost predicate GoodTensor(item: SourceTensor, objects: Objects) {
    && item.name != ""
    && KnownDtypeBytes(item.dtype).Some?
    && item.shape != [] && (forall d :: d in item.shape ==> d > 0)
    && item.objectOffset >= 0 && item.length > 0
    && item.objectPath in objects && item.objectOffset + item.length <= |objects[item.objectPath]|
    && KnownDtypeBytes(item.dtype).value * Product(item.shape) == item.length
  }

  ghost predicate DistinctTensors(tensors: seq<SourceTensor>) {
    forall i, j :: 0 <= i < j < |tensors| ==> tensors[i].name != tensors[j].name
  }

  ghost predicate Assemblable(tensors: seq<SourceTensor>, objects: Objects) {
    && tensors != [] && DistinctTensors(tensors)
    && forall i :: 0 <= i < |tensors| ==> GoodTensor(tensors[i], objects)
  }

  /** The bytes a tensor contributes. */
  function Piece(item: SourceTensor, objects: Objects): Bytes
    requires item.objectOffset >= 0 && item.length >= 0
    requires item.objectPath in objects && item.objectOffset + item.length <= |objects[item.objectPath]|
  {
    objects[item.objectPath][item.objectOffset..item.objectOffset + item.length]
  }

  function Total(tensors: seq<SourceTensor>): int {
    if tensors == [] then 0 else Total(tensors[..|tensors| - 1]) + tensors[|tensors| - 1].length
  }

  function Member(item: SourceTensor, offset: int): (string, HeaderValue) {
    (item.name, Tensor(item.dtype, item.shape, offset, offset + item.length))
  }

  function HeaderOf(tensors: seq<SourceTensor>): (h: Header)
    ensures |h| == |tensors|
  {
    if tensors == [] then [] else
      HeaderOf(tensors[..|tensors| - 1]) + [Member(tensors[|tensors| - 1], Total(tensors[..|tensors| - 1]))]
  }

  ghost function Payload(tensors: seq<SourceTensor>, objects: Objects): Bytes
    requires forall i :: 0 <= i < |tensors| ==> GoodTensor(tensors[i], objects)
  {
    if tensors == [] then [] else
      assert GoodTensor(tensors[|tensors| - 1], objects);
      Payload(tensors[..|tensors| - 1], objects) + Piece(tensors[|tensors| - 1], objects)
  }

  /** The shard: eight-byte header length, header, payload. */
  ghost function ShardBytes(tensors: seq<SourceTensor>, objects: Objects, encode: JsonEncoder): Bytes
    requires forall i :: 0 <= i < |tensors| ==> GoodTensor(tensors[i], objects)
  {
    var header := encode(HeaderOf(tensors));
    LittleEndian(|header|, 8) + header + Payload(tensors, objects)
  }

  // --------------------------------------------------------------- writing

  predicate CheckTensor(item: SourceTensor, objects: Objects) {
    && item.name != ""
    && item.dtype in {"F32", "BF16", "U8"}
    && item.shape != [] && !(exists d :: d in item.shape && d <= 0)
    && item.objectOffset >= 0 && item.length > 0
    && item.objectPath in objects && item.objectOffset + item.length <= |objects[item.objectPath]|
    && Product(item.shape) * KnownDtypeBytes(item.dtype).value == item.length
  }

  lemma {:induction false} CheckIsGood(item: SourceTensor, objects: Objects)
    ensures CheckTensor(item, objects) <==> GoodTensor(item, objects)
  {
    hide Product;
    if KnownDtypeBytes(item.dtype).Some? {
      assert Product(item.shape) * KnownDtypeBytes(item.dtype).value ==
             KnownDtypeBytes(item.dtype).value * Product(item.shape);
    }
  }

  /** Copy one piece in bounded chunks; the digest absorbs what is written. */
  method CopyPiece(item: SourceTensor, objects: Objects, chunkBytes: int) returns (r: Result<Bytes>)
    requires GoodTensor(item, objects) && chunkBytes > 0
    ensures r == Ok(Piece(item, objects))
  {
    var source := new ByteStream(objects[item.objectPath]);
    source.Seek(item.objectOffset);
    var written: Bytes := [];
    var remaining := item.length;
    while remaining != 0
      invariant 0 <= remaining <= item.length && source.data == objects[item.objectPath]
      invariant source.position == item.objectOffset + (item.length - remaining)
      invariant written == source.data[item.objectOffset..source.position]
    {
      var chunk := source.Read(Min(chunkBytes, remaining));
      if chunk == [] {
        return Err(TruncatedOfficialMoeObject);
      }
      written := written + chunk;
      remaining := remaining - |chunk|;
    }
    return Ok(written);
  }

  lemma {:induction false} PrefixSteps(tensors: seq<SourceTensor>, objects: Objects, i: nat)
    requires i < |tensors|
    ensures Total(tensors[..i + 1]) == Total(tensors[..i]) + tensors[i].length
    ensures HeaderOf(tensors[..i + 1]) == HeaderOf(tensors[..i]) + [Member(tensors[i], Total(tensors[..i]))]
    ensures (forall k :: 0 <= k < |tensors| ==> GoodTensor(tensors[k], objects)) ==>
              Payload(tensors[..i + 1], objects) == Payload(tensors[..i], objects) + Piece(tensors[i], objects)
  {
    assert tensors[..i + 1][..i] == tensors[..i];
  }

  /** The metadata loop: check every tensor and lay them out one after another. */
  method LayOut(tensors: seq<SourceTensor>, objects: Objects) returns (r: Result<Header>)
    ensures r.Ok? <==> forall i :: 0 <= i < |tensors| ==> GoodTensor(tensors[i], objects)
    ensures r.Ok? ==> r.value == HeaderOf(tensors)
  {
    hide CheckTensor, GoodTensor;
    var metadata: Header := [];
    var offset := 0;
    for i := 0 to |tensors|
      invariant forall k :: 0 <= k < i ==> GoodTensor(tensors[k], objects)
      invariant metadata == HeaderOf(tensors[..i]) && offset == Total(tensors[..i])
    {
      var item := tensors[i];
      PrefixSteps(tensors, objects, i);
      CheckIsGood(item, objects);
      if !CheckTensor(item, objects) {
        return Err(InvalidOfficialMoeSource);
      }
      metadata := metadata + [Member(item, offset)];
      offset := offset + item.length;
    }
    assert tensors[..|tensors|] == tensors;
    return Ok(metadata);
  }

  /** The write loop: the pieces one after another, each under its own digest. */
  method WritePieces(tensors: seq<SourceTensor>, objects: Objects, chunkBytes: int, sha: Bytes -> Bytes)
    returns (output: Bytes, digests: map<string, Bytes>)
    requires Assemblable(tensors, objects) && chunkBytes > 0
    ensures output == Payload(tensors, objects)
    ensures forall i :: 0 <= i < |tensors| ==>
              tensors[i].name in digests && digests[tensors[i].name] == sha(Piece(tensors[i], objects))
  {
    hide Product;
    output, digests := [], map[];
    for i := 0 to |tensors|
      invariant output == Payload(tensors[..i], objects)
      invariant forall k :: 0 <= k < i ==>
                  tensors[k].name in digests && digests[tensors[k].name] == sha(Piece(tensors[k], objects))
    {
      PrefixSteps(tensors, objects, i);
      assert GoodTensor(tensors[i], objects);
      var piece := CopyPiece(tensors[i], objects, chunkBytes);
      output := output + piece.value;
      digests := digests[tensors[i].name := sha(piece.value)];
    }
    assert tensors[..|tensors|] == tensors;
  }

  // --------------------------------------------- what the manifest records

  predicate EndsWith(name: string, suffix: string) {
    |suffix| <= |name| && name[|name| - |suffix|..] == suffix
  }

  const SCALE := ".weight_scale"
  const PACKED := ".weight_packed"

  /** A packed weight, and nothing else, carries an unpacked shape; scales are not asked. */
  predicate ShapeFits(item: SourceTensor) {
    EndsWith(item.name, SCALE) || (EndsWith(item.name, PACKED) <==> item.packedShape.Some?)
  }

  /** The name a packed weight shares with its scale. */
  function BaseOf(name: string): string
    requires EndsWith(name, PACKED)
  {
    name[..|name| - |PACKED|]
  }

  /** The tensors the manifest lists, in order: packed weights by their base, no scales. */
  function TensorOrder(tensors: seq<SourceTensor>): seq<string> {
    if tensors == [] then [] else
      var item := tensors[|tensors| - 1];
      TensorOrder(tensors[..|tensors| - 1]) +
      (if EndsWith(item.name, SCALE) then [] else if EndsWith(item.name, PACKED) then [BaseOf(item.name)] else [item.name])
  }

  function PackedShapes(tensors: seq<SourceTensor>): map<string, seq<int>> {
    if tensors == [] then map[] else
      var item, shapes := tensors[|tensors| - 1], PackedShapes(tensors[..|tensors| - 1]);
      if !EndsWith(item.name, SCALE) && EndsWith(item.name, PACKED) && item.packedShape.Some?
      then shapes[BaseOf(item.name) := item.packedShape.value] else shapes
  }

  lemma {:induction false} BasesDiffer(a: string, b: string)
    requires a != b && EndsWith(a, PACKED) && EndsWith(b, PACKED)
    ensures BaseOf(a) != BaseOf(b)
  {
    assert a == BaseOf(a) + PACKED;
    assert b == BaseOf(b) + PACKED;
  }

  /** Every packed weight is listed under its base with its own shape, when names are distinct. */
  lemma {:induction false} ShapeOfPacked(tensors: seq<SourceTensor>, i: nat)
    requires DistinctTensors(tensors) && i < |tensors|
    requires EndsWith(tensors[i].name, PACKED) && !EndsWith(tensors[i].name, SCALE) && tensors[i].packedShape.Some?
    ensures BaseOf(tensors[i].name) in PackedShapes(tensors)
    ensures PackedShapes(tensors)[BaseOf(tensors[i].name)] == tensors[i].packedShape.value
    decreases |tensors|
  {
    hide EndsWith, BaseOf;
    var n := |tensors| - 1;
    if i < n {
      ShapeOfPacked(tensors[..n], i);
      if EndsWith(tensors[n].name, PACKED) {
        BasesDiffer(tensors[i].name, tensors[n].name);
      }
    }
  }

  /** Something in front of the suffix makes the name. */
  ghost predicate Suffixed(name: string, suffix: string) {
    exists base: string :: name == base + suffix
  }

  lemma {:induction false} EndsWithSuffix(base: string, suffix: string)
    ensures EndsWith(base + suffix, suffix) && (base + suffix)[..|base|] == base
  {
    assert (base + suffix)[|base|..] == suffix;
  }

  lemma {:induction false} EndsWithBase(name: string, suffix: string)
    requires EndsWith(name, suffix)
    ensures name == name[..|name| - |suffix|] + suffix && Suffixed(name, suffix)
  {
  }

  /** A scale is neither listed nor asked for a shape. */
  lemma {:induction false} ScaleIsSkipped(item: SourceTensor, base: string)
    requires item.name == base + ".weight_scale"
    ensures TensorOrder([item]) == [] && ShapeFits(item)
  {
    EndsWithSuffix(base, SCALE);
    assert [item][..0] == [];
  }

  /** A packed weight is listed by its base and needs a shape. */
  lemma {:induction false} PackedByBase(item: SourceTensor, base: string)
    requires item.name == base + ".weight_packed"
    ensures TensorOrder([item]) == [base] && (ShapeFits(item) <==> item.packedShape.Some?)
  {
    EndsWithSuffix(base, PACKED);
    assert item.name[|item.name| - 1] == 'd';
    assert [item][..0] == [];
  }

  /** Any other tensor is listed by its name and must not have a shape. */
  lemma {:induction false} OtherByName(item: SourceTensor)
    requires !Suffixed(item.name, ".weight_scale") && !Suffixed(item.name, ".weight_packed")
    ensures TensorOrder([item]) == [item.name] && (ShapeFits(item) <==> item.packedShape.None?)
  {
    if EndsWith(item.name, SCALE) {
      EndsWithBase(item.name, SCALE);
    }
    if EndsWith(item.name, PACKED) {
      EndsWithBase(item.name, PACKED);
    }
    assert [item][..0] == [];
  }

  /** The listing keeps the order of the tensors. */
  lemma {:induction false} OrderOfParts(a: seq<SourceTensor>, b: seq<SourceTensor>)
    ensures TensorOrder(a + b) == TensorOrder(a) + TensorOrder(b)
  {
    hide EndsWith, BaseOf;
    if b == [] {
      assert a + b == a;
    } else {
      OrderOfParts(a, b[..|b| - 1]);
      assert (a + b)[..|a + b| - 1] == a + b[..|b| - 1];
    }
  }

  /** The loop over the written tensors. */
  method Describe(tensors: seq<SourceTensor>) returns (r: Result<(map<string, seq<int>>, seq<string>)>)
    ensures r.Ok? <==> forall i :: 0 <= i < |tensors| ==> ShapeFits(tensors[i])
    ensures r.Ok? ==> r.value == (PackedShapes(tensors), TensorOrder(tensors))
  {
    hide EndsWith;
    var shapes: map<string, seq<int>> := map[];
    var order: seq<string> := [];
    for i := 0 to |tensors|
      invariant forall k :: 0 <= k < i ==> ShapeFits(tensors[k])
      invariant shapes == PackedShapes(tensors[..i]) && order == TensorOrder(tensors[..i])
    {
      var item := tensors[i];
      assert tensors[..i + 1][..i] == tensors[..i];
      if EndsWith(item.name, SCALE) {
        continue;
      }
      if EndsWith(item.name, PACKED) {
        if item.packedShape.None? {
          return Err(InvalidOfficialMoeSource);
        }
        shapes := shapes[BaseOf(item.name) := item.packedShape.value];
        order := order + [BaseOf(item.name)];
      } else {
        if item.packedShape.Some? {
          return Err(InvalidOfficialMoeSource);
        }
        order := order + [item.name];
      }
    }
    assert tensors[..|tensors|] == tensors;
    return Ok((shapes, order));
  }

  /** The metadata argument: absent or an object, under a known key, and for the
      two-layer key with its format, layers and step order. */
  predicate ValidMetadata(metadata: M.Json, key: string) {
    && (metadata.Null? || metadata.Obj?)
    && key in {"official_moe", "official_layer", "official_two_layer"}
    && (key == "official_two_layer" ==>
          && metadata.Obj?
          && M.Same(M.Get(metadata.fields, M.Format), M.Str("k3x-official-two-layer-v1"))
          && M.Same(M.Get(metadata.fields, M.LayerIds), M.List([M.Int(1), M.Int(2)]))
          && M.Same(M.Get(metadata.fields, M.StepOrder), M.List([M.Str("a:1"), M.Str("a:2"), M.Str("b:1"), M.Str("b:2")])))
  }

  /** What the assembler needs before it writes anything. */
  ghost predicate Writable(tensors: seq<SourceTensor>, objects: Objects, config: M.Json, metadata: M.Json, key: string,
                           chunkBytes: int, encode: JsonEncoder)
  {
    && chunkBytes > 0 && config.Obj? && ValidMetadata(metadata, key)
    && Assemblable(tensors, objects) && |encode(HeaderOf(tensors))| < Pow256(8)
  }

  /** The digests, shapes and order of the manifest written beside the shard. */
  datatype Assembled = Assembled(
    digests: map<string, Bytes>, packedShapes: map<string, seq<int>>, tensorOrder: seq<string>)

  /** Write the shard, then describe it.  A tensor whose unpacked shape is missing or out of
      place is noticed only when the shard is already there. */
  method AssembleShard(tensors: seq<SourceTensor>, objects: Objects, config: M.Json, metadata: M.Json, key: string,
                       chunkBytes: int, encode: JsonEncoder, sha: Bytes -> Bytes)
    returns (r: Result<Assembled>, shard: Option<Bytes>)
    ensures shard.Some? <==> Writable(tensors, objects, config, metadata, key, chunkBytes, encode)
    ensures shard.Some? ==> Assemblable(tensors, objects) && shard.value == ShardBytes(tensors, objects, encode)
    ensures r.Ok? <==> shard.Some? && forall i :: 0 <= i < |tensors| ==> ShapeFits(tensors[i])
    ensures r.Ok? ==> r.value.packedShapes == PackedShapes(tensors) && r.value.tensorOrder == TensorOrder(tensors)
    ensures r.Ok? ==> Assemblable(tensors, objects) && forall i :: 0 <= i < |tensors| ==>
              && tensors[i].name in r.value.digests
              && r.value.digests[tensors[i].name] == sha(Piece(tensors[i], objects))
  {
    hide LittleEndian, Pow256, Product, ValidMetadata, ShapeFits;
    if chunkBytes <= 0 || tensors == [] || !config.Obj? || !ValidMetadata(metadata, key) {
      return Err(InvalidOfficialMoeSource), Option.None;
    }
    if exists i, j :: 0 <= i < j < |tensors| && tensors[i].name == tensors[j].name {
      return Err(InvalidOfficialMoeSource), Option.None;
    }
    var laid := LayOut(tensors, objects);
    if laid.Err? {
      return Err(laid.error), Option.None;
    }
    var header := encode(laid.value);
    if |header| >= Pow256(8) {
      return Err(StructRange), Option.None;
    }
    var pieces, digests := WritePieces(tensors, objects, chunkBytes, sha);
    shard := Some(LittleEndian(|header|, 8) + header + pieces);
    var described := Describe(tensors);
    if described.Err? {
      return Err(described.error), shard;
    }
    return Ok(Assembled(digests, described.value.0, described.value.1)), shard;
  }

  // --------------------------------------------------------------- reading

  /** Decoding the printed header gives its members back, in any order. */
  ghost predicate PrintsBack(encode: JsonEncoder, decode: JsonDecoder, header: Header) {
    decode(encode(header)).Some? && multiset(decode(encode(header)).value) == multiset(header)
  }

  lemma {:induction false} ContiguousSnoc(s: seq<Range>, r: Range, cursor: int)
    requires Contiguous(s, cursor, r.start)
    ensures Contiguous(s + [r], cursor, r.end)
  {
    if s == [] {
      assert s + [r] == [r];
    } else {
      assert (s + [r])[1..] == s[1..] + [r];
      ContiguousSnoc(s[1..], r, s[0].end);
    }
  }

  /** The printed header lays the tensors out as one contiguous run. */
  lemma {:induction false} HeaderIsContiguous(tensors: seq<SourceTensor>)
    requires forall i :: 0 <= i < |tensors| ==> tensors[i].length > 0
    ensures Contiguous(DataRanges(HeaderOf(tensors)), 0, Total(tensors))
    ensures Total(tensors) >= 0
  {
    if tensors != [] {
      var n := |tensors| - 1;
      var init, last := tensors[..n], tensors[n];
      HeaderIsContiguous(init);
      var h := HeaderOf(tensors);
      assert h[..n] == HeaderOf(init) && h[n] == Member(last, Total(init));
      ContiguousSnoc(DataRanges(HeaderOf(init)), Range(Total(init), Total(tensors)), 0);
    }
  }

  lemma {:induction false} HeaderAt(tensors: seq<SourceTensor>, i: nat)
    requires i < |tensors| && forall k :: 0 <= k < |tensors| ==> tensors[k].length > 0
    ensures HeaderOf(tensors)[i] == Member(tensors[i], Total(tensors[..i]))
    ensures 0 <= Total(tensors[..i]) && Total(tensors[..i]) + tensors[i].length <= Total(tensors)
    decreases |tensors|
  {
    var n := |tensors| - 1;
    if i < n {
      HeaderAt(tensors[..n], i);
      assert tensors[..n][..i] == tensors[..i];
    } else {
      HeaderIsContiguous(tensors[..i]);
    }
  }

  lemma {:induction false} PayloadSize(tensors: seq<SourceTensor>, objects: Objects)
    requires forall i :: 0 <= i < |tensors| ==> GoodTensor(tensors[i], objects)
    ensures |Payload(tensors, objects)| == Total(tensors)
  {
    if tensors != [] {
      PayloadSize(tensors[..|tensors| - 1], objects);
    }
  }

  lemma {:induction false} PayloadAt(tensors: seq<SourceTensor>, objects: Objects, i: nat)
    requires i < |tensors| && forall k :: 0 <= k < |tensors| ==> GoodTensor(tensors[k], objects)
    ensures var start := Total(tensors[..i]);
            && 0 <= start && start + tensors[i].length <= |Payload(tensors, objects)|
            && Payload(tensors, objects)[start..start + tensors[i].length] == Piece(tensors[i], objects)
    decreases |tensors|
  {
    hide Product, KnownDtypeBytes, Total;
    var n := |tensors| - 1;
    PayloadSize(tensors[..i], objects);
    if i < n {
      PayloadAt(tensors[..n], objects, i);
      assert tensors[..n][..i] == tensors[..i];
    }
  }

  /** A header printed by the assembler is accepted exactly when no tensor name
      starts with the reserved prefix. */
  lemma {:induction false} HeaderAccepted(tensors: seq<SourceTensor>, objects: Objects, dataStart: nat)
    requires Assemblable(tensors, objects)
    ensures Accepts(HeaderOf(tensors), dataStart, dataStart + Total(tensors)) <==>
              forall i :: 0 <= i < |tensors| ==> !("__" <= tensors[i].name)
  {
    hide Product, HeaderOf, Total, DataRanges, Contiguous;
    var h := HeaderOf(tensors);
    HeaderIsContiguous(tensors);
    DataRangesNonempty(h);
    ContiguousTiles(DataRanges(h), 0, Total(tensors));
    forall i | 0 <= i < |h|
      ensures h[i].0 == tensors[i].name
      ensures WellFormed(h[i].0, h[i].1, Total(tensors)) <==> !("__" <= tensors[i].name)
    {
      HeaderAt(tensors, i);
      assert GoodTensor(tensors[i], objects);
      assert "__" <= METADATA;
    }
  }

  /** The shard's header length, header and payload sit where the reader looks. */
  lemma {:induction false} ShardParts(tensors: seq<SourceTensor>, objects: Objects, encode: JsonEncoder)
    requires Assemblable(tensors, objects) && |encode(HeaderOf(tensors))| <= MAX_HEADER_BYTES
    ensures var file, n := ShardBytes(tensors, objects, encode), |encode(HeaderOf(tensors))|;
            && HeaderLength(file) == Ok(n)
            && file[8..8 + n] == encode(HeaderOf(tensors))
            && |file| == 8 + n + Total(tensors)
            && file[8 + n..] == Payload(tensors, objects)
  {
    var header := encode(HeaderOf(tensors));
    ModulusIsPow(U64);
    ReadsBack(|header|, 8);
    PayloadSize(tensors, objects);
    var file := ShardBytes(tensors, objects, encode);
    assert file[..8] == LittleEndian(|header|, 8);
  }

  /** Assemble, then inspect: the shard is accepted exactly when its header fits
      the reader's limit and no tensor name is reserved. */
  lemma {:induction false} AssembledIsAccepted(tensors: seq<SourceTensor>, objects: Objects, encode: JsonEncoder, decode: JsonDecoder)
    requires Assemblable(tensors, objects)
    requires |encode(HeaderOf(tensors))| < Pow256(8)
    requires PrintsBack(encode, decode, HeaderOf(tensors))
    ensures AcceptsShard(ShardBytes(tensors, objects, encode), decode) <==>
              && |encode(HeaderOf(tensors))| <= MAX_HEADER_BYTES
              && forall i :: 0 <= i < |tensors| ==> !("__" <= tensors[i].name)
  {
    hide LittleEndian, FromLittleEndian, Pow256, Product, HeaderOf, Total, Payload;
    var header, file := encode(HeaderOf(tensors)), ShardBytes(tensors, objects, encode);
    if |header| <= MAX_HEADER_BYTES {
      ShardParts(tensors, objects, encode);
      HeaderAccepted(tensors, objects, 8 + |header|);
      OrderOfMembers(decode(header).value, HeaderOf(tensors), 8 + |header|, |file|);
      OrderOfMembers(HeaderOf(tensors), decode(header).value, 8 + |header|, |file|);
    } else {
      ReadsBack(|header|, 8);
      assert file[..8] == LittleEndian(|header|, 8);
    }
  }

  /** Reading a tensor back from the assembled shard returns the piece of the
      object it was built from. */
  lemma {:induction false} AssembledReadsBack(tensors: seq<SourceTensor>, objects: Objects, encode: JsonEncoder, decode: JsonDecoder, i: nat)
    requires Assemblable(tensors, objects) && i < |tensors|
    requires PrintsBack(encode, decode, HeaderOf(tensors))
    requires AcceptsShard(ShardBytes(tensors, objects, encode), decode)
    requires |encode(HeaderOf(tensors))| < Pow256(8)
    ensures var file, item := ShardBytes(tensors, objects, encode), tensors[i];
            var found := ShardTensors(file, decode);
            && item.name in found
            && var t := found[item.name];
               && t.dtype == item.dtype && t.shape == item.shape && t.length == item.length
               && 0 <= t.offset && t.offset + t.length <= |file|
               && file[t.offset..t.offset + t.length] == Piece(item, objects)
  {
    hide LittleEndian, FromLittleEndian, Pow256, Product, HeaderOf, Total, Payload, TensorsOf, Accepts;
    AssembledIsAccepted(tensors, objects, encode, decode);
    ShardParts(tensors, objects, encode);
    var n, start := |encode(HeaderOf(tensors))|, Total(tensors[..i]);
    var file := ShardBytes(tensors, objects, encode);
    assert GoodTensor(tensors[i], objects);
    HeaderAt(tensors, i);
    assert DistinctNames(HeaderOf(tensors)) by {
      forall j, k | 0 <= j < k < |tensors| ensures HeaderOf(tensors)[j].0 != HeaderOf(tensors)[k].0 {
        HeaderAt(tensors, j);
        HeaderAt(tensors, k);
      }
    }
    TensorsAre(HeaderOf(tensors), 8 + n);
    OrderOfTensors(decode(encode(HeaderOf(tensors))).value, HeaderOf(tensors), 8 + n);
    PayloadAt(tensors, objects, i);
    assert file[8 + n..][start..start + tensors[i].length] == file[8 + n + start..8 + n + start + tensors[i].length];
  }

  /** The round trip through the chunked reader, for every chunk size and every
      schedule of short reads. */
  method ReadAssembled(tensors: seq<SourceTensor>, objects: Objects, config: M.Json, metadata: M.Json, key: string,
                       encode: JsonEncoder, decode: JsonDecoder, chunkBytes: int, i: nat, copyBytes: int, sha: Bytes -> Bytes)
    returns (chunks: seq<Bytes>)
    requires Writable(tensors, objects, config, metadata, key, copyBytes, encode) && i < |tensors| && chunkBytes > 0
    requires |encode(HeaderOf(tensors))| <= MAX_HEADER_BYTES
    requires PrintsBack(encode, decode, HeaderOf(tensors))
    requires forall k :: 0 <= k < |tensors| ==> !("__" <= tensors[k].name)
    ensures Concat(chunks) == Piece(tensors[i], objects)
    ensures forall c :: c in chunks ==> 0 < |c| <= chunkBytes
  {
    hide LittleEndian, FromLittleEndian, Product, HeaderOf, Total, Payload, TensorsOf, Accepts, Concat, ValidMetadata;
    var assembled, shard := AssembleShard(tensors, objects, config, metadata, key, copyBytes, encode, sha);
    AssembledIsAccepted(tensors, objects, encode, decode);
    AssembledReadsBack(tensors, objects, encode, decode, i);
    var found := InspectShard(shard.value, decode);
    var t := found.value[tensors[i].name];
    assert GoodTensor(tensors[i], objects);
    var status;
    chunks, status := IterTensorChunks(shard.value, t.offset, t.length, chunkBytes);
  }

  // ------------------------------------------------ shards nobody can read

  /** A tensor of one byte. */
  function OneByte(name: string): SourceTensor {
    SourceTensor(name, "U8", [1], Blob([]), 0, 1, Option.None)
  }

  lemma {:induction false} OneByteIsWritable(name: string, objects: Objects, encode: JsonEncoder)
    requires name != "" && objects == map[Blob([]) := [7]] && |encode(HeaderOf([OneByte(name)]))| < Pow256(8)
    ensures Writable([OneByte(name)], objects, M.Obj(map[]), M.Null, "official_moe", 1, encode)
  {
    hide HeaderOf, Pow256;
    assert Product([1]) == 1 by { assert [1][..0] == []; }
  }

  /** A shard under a reserved name is assembled, and then refused. */
  lemma {:induction false} ReservedNameIsRefused(objects: Objects, encode: JsonEncoder, decode: JsonDecoder)
    requires objects == map[Blob([]) := [7]]
    requires forall h: Header :: encode(h) == []
    requires forall b: Bytes :: decode(b) == Some(HeaderOf([OneByte("__a")]))
    ensures Writable([OneByte("__a")], objects, M.Obj(map[]), M.Null, "official_moe", 1, encode)
    ensures PrintsBack(encode, decode, HeaderOf([OneByte("__a")])) && ShapeFits(OneByte("__a"))
    ensures !AcceptsShard(ShardBytes([OneByte("__a")], objects, encode), decode)
  {
    hide AcceptsShard, ShardBytes, HeaderOf, Pow256;
    OneByteIsWritable("__a", objects, encode);
    AssembledIsAccepted([OneByte("__a")], objects, encode, decode);
    assert "__" <= [OneByte("__a")][0].name;
  }

  /** So is a shard whose header is one byte too long. */
  lemma {:induction false} LongHeaderIsRefused(objects: Objects, encode: JsonEncoder, decode: JsonDecoder)
    requires objects == map[Blob([]) := [7]]
    requires forall h: Header :: encode(h) == Zeros(MAX_HEADER_BYTES + 1)
    requires forall b: Bytes :: decode(b) == Some(HeaderOf([OneByte("a")]))
    ensures Writable([OneByte("a")], objects, M.Obj(map[]), M.Null, "official_moe", 1, encode)
    ensures PrintsBack(encode, decode, HeaderOf([OneByte("a")]))
    ensures !AcceptsShard(ShardBytes([OneByte("a")], objects, encode), decode)
  {
    hide AcceptsShard, ShardBytes, HeaderOf, Pow256;
    ModulusIsPow(U64);
    OneByteIsWritable("a", objects, encode);
    AssembledIsAccepted([OneByte("a")], objects, encode, decode);
  }

  /** A packed weight without its shape is written, and only then refused. */
  lemma {:induction false} MissingShapeIsLate(objects: Objects, encode: JsonEncoder)
    requires objects == map[Blob([]) := [7]] && forall h: Header :: encode(h) == []
    ensures Writable([OneByte("a.weight_packed")], objects, M.Obj(map[]), M.Null, "official_moe", 1, encode)
    ensures !ShapeFits(OneByte("a.weight_packed"))
  {
    hide HeaderOf, Pow256;
    OneByteIsWritable("a.weight_packed", objects, encode);
  }
}
