// What K3XReader.open accepts (converter/k3x_converter/reader.py).

module Reader {
  import opened Arithmetic
  import opened Format
  import opened Layout
  import opened RootDigest
  import opened Streams
  import opened Struct
  import opened Wrappers

  type Sha = Bytes -> Bytes

  const TENS: Bytes := [0x54, 0x45, 0x4E, 0x53]
  const LAYR: Bytes := [0x4C, 0x41, 0x59, 0x52]
  const EXPT: Bytes := [0x45, 0x58, 0x50, 0x54]

  datatype K3XFile = K3XFile(
    superblock: Superblock, tensors: seq<TensorRecord>, layers: seq<LayerRecord>,
    experts: seq<ExpertRecord>, modelConfig: Bytes)

  function ReadExact(file: Bytes, offset: int, length: int): (r: Result<Bytes>)
    requires 0 <= offset && 0 <= length
    ensures r.Ok? <==> offset + length <= |file|
    ensures r.Ok? ==> r.value == file[offset..offset + length]
  {
    var end := offset + length;
    if end < offset || end > |file| then Err(TruncatedFile) else Ok(file[offset..end])
  }

  /** A BF16 tensor is stored plain: two bytes a value and nothing auxiliary. */
  predicate PlainBf16(r: TensorRecord) {
    && r.quantization == Quantization.None
    && r.dataLength != 0
    && r.dataLength == r.logicalLength
    && r.logicalLength == Product(r.dimensions) * 2
    && r.auxiliaryOffset == 0 && r.auxiliaryLength == 0 && r.auxiliaryCrc32c == 0
  }

  ghost predicate AllBf16Plain(records: seq<TensorRecord>) {
    forall i :: 0 <= i < |records| && records[i].dtype.Bf16? ==> PlainBf16(records[i])
  }

  ghost predicate HasBf16(records: seq<TensorRecord>) {
    exists i :: 0 <= i < |records| && records[i].dtype.Bf16?
  }

  function DecodeTensors(items: seq<Bytes>): (r: Result<seq<TensorRecord>>)
    ensures r.Ok? ==> |r.value| == |items| && forall i :: 0 <= i < |items| ==> DecodeTensor(items[i]) == Ok(r.value[i])
    ensures r.Err? ==> exists i :: 0 <= i < |items| && DecodeTensor(items[i]).Err?
  {
    if items == [] then Ok([]) else
      var init :- DecodeTensors(items[..|items| - 1]);
      var last :- DecodeTensor(items[|items| - 1]);
      Ok(init + [last])
  }

  function DecodeLayers(items: seq<Bytes>): (r: Result<seq<LayerRecord>>)
    ensures r.Ok? ==> |r.value| == |items| && forall i :: 0 <= i < |items| ==> DecodeLayer(items[i]) == Ok(r.value[i])
  {
    if items == [] then Ok([]) else
      var init :- DecodeLayers(items[..|items| - 1]);
      var last :- DecodeLayer(items[|items| - 1]);
      Ok(init + [last])
  }

  function DecodeExperts(items: seq<Bytes>): (r: Result<seq<ExpertRecord>>)
    ensures r.Ok? ==> |r.value| == |items| && forall i :: 0 <= i < |items| ==> DecodeExpert(items[i]) == Ok(r.value[i])
  {
    if items == [] then Ok([]) else
      var init :- DecodeExperts(items[..|items| - 1]);
      var last :- DecodeExpert(items[|items| - 1]);
      Ok(init + [last])
  }

  // ------------------------------------------------------ unsigned fields

  lemma {:induction false} SuperblockUnsigned(s: Superblock)
    requires FieldsFit(s)
    ensures forall i :: 0 <= i < 10 ==> BodyFields(s)[i] >= 0
  {
    forall i | 0 <= i < 10 ensures BodyFields(s)[i] >= 0 {
      assert Fits(SB_BODY[i], BodyFields(s)[i]) && SB_BODY[i] == U64;
    }
  }

  lemma {:induction false} TensorUnsigned(r: TensorRecord)
    requires CanonicalTensor(r)
    ensures r.dataOffset >= 0 && r.dataLength >= 0 && r.auxiliaryOffset >= 0 && r.auxiliaryLength >= 0
  {
    var t := TensorTail(r);
    assert Fits(TENSOR_TAIL[4], t[4]) && Fits(TENSOR_TAIL[5], t[5]);
    assert Fits(TENSOR_TAIL[7], t[7]) && Fits(TENSOR_TAIL[8], t[8]);
  }

  // ------------------------------------------------------------ acceptance

  /** The four regions behind the superblock, read at their recorded places. */
  datatype Regions = Regions(tensors: Bytes, layers: Bytes, experts: Bytes, config: Bytes)

  function ReadRegions(file: Bytes, s: Superblock): Result<Regions>
    requires FieldsFit(s)
  {
    SuperblockUnsigned(s);
    assert forall i :: 0 <= i < 10 ==> BodyFields(s)[i] >= 0;
    assert BodyFields(s)[0] >= 0 && BodyFields(s)[1] >= 0 && BodyFields(s)[2] >= 0 && BodyFields(s)[3] >= 0;
    assert BodyFields(s)[4] >= 0 && BodyFields(s)[5] >= 0 && BodyFields(s)[6] >= 0 && BodyFields(s)[7] >= 0;
    var tensors :- ReadExact(file, s.tensorDirectoryOffset, s.tensorDirectoryLength);
    var layers :- ReadExact(file, s.layerDirectoryOffset, s.layerDirectoryLength);
    var experts :- ReadExact(file, s.expertDirectoryOffset, s.expertDirectoryLength);
    if s.modelConfigLength != MODEL_CONFIG_BYTES then Err(InvalidModelConfigLength) else
    var config :- ReadExact(file, s.modelConfigOffset, s.modelConfigLength);
    Ok(Regions(tensors, layers, experts, config))
  }

  /** The stored checksums of one tensor hold of the bytes it points at. */
  ghost predicate Intact(file: Bytes, r: TensorRecord, crc: Crc) {
    && 0 <= r.dataOffset && 0 <= r.dataLength && r.dataOffset + r.dataLength <= |file|
    && crc(file[r.dataOffset..r.dataOffset + r.dataLength]) == r.dataCrc32c
    && (r.auxiliaryLength != 0 ==>
          && 0 <= r.auxiliaryOffset && 0 <= r.auxiliaryLength && r.auxiliaryOffset + r.auxiliaryLength <= |file|
          && crc(file[r.auxiliaryOffset..r.auxiliaryOffset + r.auxiliaryLength]) == r.auxiliaryCrc32c)
  }

  /** The superblock, the regions and the tensor records of a finished file. */
  function LoadTensors(file: Bytes, crc: Crc): Result<(Superblock, Regions, seq<TensorRecord>)> {
    var superblock :- DecodeSuperblock(file[..Min(SUPERBLOCK_BYTES, |file|)], crc);
    SuperblockEncodes(file[..Min(SUPERBLOCK_BYTES, |file|)], crc);
    if superblock.state != 1 then Err(UnfinalizedFile)
    else if superblock.fileLength != |file| then Err(TruncatedFile)
    else
      var regions :- ReadRegions(file, superblock);
      var items :- DecodeDirectory(regions.tensors, TENS, TENSOR_RECORD_BYTES);
      var tensors :- DecodeTensors(items);
      Ok((superblock, regions, tensors))
  }

  function LoadOthers(regions: Regions): Result<(seq<LayerRecord>, seq<ExpertRecord>)> {
    var layerItems :- DecodeDirectory(regions.layers, LAYR, LAYER_RECORD_BYTES);
    var layers :- DecodeLayers(layerItems);
    var expertItems :- DecodeDirectory(regions.experts, EXPT, EXPERT_RECORD_BYTES);
    var experts :- DecodeExperts(expertItems);
    Ok((layers, experts))
  }

  /** `k` is what the superblock and the directories of `file` describe. */
  ghost predicate Describes(file: Bytes, k: K3XFile, regions: Regions, crc: Crc) {
    && LoadTensors(file, crc) == Ok((k.superblock, regions, k.tensors))
    && LoadOthers(regions) == Ok((k.layers, k.experts))
    && k.modelConfig == regions.config
  }

  // ------------------------------------ a description is an encoding

  function EncodeTensors(records: seq<TensorRecord>): (r: Result<seq<Bytes>>)
    ensures r.Ok? ==> |r.value| == |records|
  {
    if records == [] then Ok([]) else
      var init :- EncodeTensors(records[..|records| - 1]);
      var last :- TensorBytes(records[|records| - 1]);
      Ok(init + [last])
  }

  function EncodeLayers(records: seq<LayerRecord>): (r: Result<seq<Bytes>>)
    ensures r.Ok? ==> |r.value| == |records|
  {
    if records == [] then Ok([]) else
      var init :- EncodeLayers(records[..|records| - 1]);
      var last :- LayerBytes(records[|records| - 1]);
      Ok(init + [last])
  }

  function EncodeExperts(records: seq<ExpertRecord>): (r: Result<seq<Bytes>>)
    ensures r.Ok? ==> |r.value| == |records|
  {
    if records == [] then Ok([]) else
      var init :- EncodeExperts(records[..|records| - 1]);
      var last :- ExpertBytes(records[|records| - 1]);
      Ok(init + [last])
  }

  lemma {:induction false} SnocInjective<T>(a: seq<T>, x: T, b: seq<T>, y: T)
    ensures a + [x] == b + [y] <==> a == b && x == y
  {
    if a + [x] == b + [y] {
      assert (a + [x])[..|a|] == a && (b + [y])[..|b|] == b;
      assert (a + [x])[|a|] == x && (b + [y])[|b|] == y;
    }
  }

  ghost predicate CanonicalTensors(records: seq<TensorRecord>) {
    forall i :: 0 <= i < |records| ==> CanonicalTensor(records[i])
  }

  lemma {:induction false} TensorsSnoc(i: seq<Bytes>, item: Bytes, r: seq<TensorRecord>, record: TensorRecord)
    ensures DecodeTensors(i + [item]) == Ok(r + [record]) <==> DecodeTensors(i) == Ok(r) && DecodeTensor(item) == Ok(record)
    ensures EncodeTensors(r + [record]) == Ok(i + [item]) <==> EncodeTensors(r) == Ok(i) && TensorBytes(record) == Ok(item)
  {
    hide DecodeTensor, TensorBytes;
    assert (i + [item])[..|i|] == i && (r + [record])[..|r|] == r;
    assert (i + [item])[|i|] == item && (r + [record])[|r|] == record;
    if DecodeTensors(i).Ok? && DecodeTensor(item).Ok? {
      SnocInjective(DecodeTensors(i).value, DecodeTensor(item).value, r, record);
    }
    if EncodeTensors(r).Ok? && TensorBytes(record).Ok? {
      SnocInjective(EncodeTensors(r).value, TensorBytes(record).value, i, item);
    }
  }

  /** Records decode from items exactly when they are canonical and encode to them. */
  lemma {:induction false} TensorsCodec(items: seq<Bytes>, records: seq<TensorRecord>)
    ensures DecodeTensors(items) == Ok(records) <==>
              CanonicalTensors(records) && EncodeTensors(records) == Ok(items)
  {
    hide DecodeTensor, TensorBytes, CanonicalTensor;
    if items != [] && records != [] {
      var i, r := items[..|items| - 1], records[..|records| - 1];
      var item, record := items[|items| - 1], records[|records| - 1];
      hide DecodeTensors, EncodeTensors;
      TensorsCodec(i, r);
      TensorCodec(item, record);
      assert items == i + [item] && records == r + [record];
      TensorsSnoc(i, item, r, record);
      assert CanonicalTensors(r + [record]) <==> CanonicalTensors(r) && CanonicalTensor(record);
    } else {
      assert DecodeTensors([]) == Ok([]) && EncodeTensors([]) == Ok([]);
    }
  }

  ghost predicate CanonicalLayers(records: seq<LayerRecord>) {
    forall i :: 0 <= i < |records| ==> CanonicalLayer(records[i])
  }

  lemma {:induction false} LayersSnoc(i: seq<Bytes>, item: Bytes, r: seq<LayerRecord>, record: LayerRecord)
    ensures DecodeLayers(i + [item]) == Ok(r + [record]) <==> DecodeLayers(i) == Ok(r) && DecodeLayer(item) == Ok(record)
    ensures EncodeLayers(r + [record]) == Ok(i + [item]) <==> EncodeLayers(r) == Ok(i) && LayerBytes(record) == Ok(item)
  {
    hide DecodeLayer, LayerBytes;
    assert (i + [item])[..|i|] == i && (r + [record])[..|r|] == r;
    assert (i + [item])[|i|] == item && (r + [record])[|r|] == record;
    if DecodeLayers(i).Ok? && DecodeLayer(item).Ok? {
      SnocInjective(DecodeLayers(i).value, DecodeLayer(item).value, r, record);
    }
    if EncodeLayers(r).Ok? && LayerBytes(record).Ok? {
      SnocInjective(EncodeLayers(r).value, LayerBytes(record).value, i, item);
    }
  }

  lemma {:induction false} LayersCodec(items: seq<Bytes>, records: seq<LayerRecord>)
    ensures DecodeLayers(items) == Ok(records) <==>
              CanonicalLayers(records) && EncodeLayers(records) == Ok(items)
  {
    hide DecodeLayer, LayerBytes, CanonicalLayer;
    if items != [] && records != [] {
      var i, r := items[..|items| - 1], records[..|records| - 1];
      var item, record := items[|items| - 1], records[|records| - 1];
      hide DecodeLayers, EncodeLayers;
      LayersCodec(i, r);
      LayerCodec(item, record);
      assert items == i + [item] && records == r + [record];
      LayersSnoc(i, item, r, record);
      assert CanonicalLayers(r + [record]) <==> CanonicalLayers(r) && CanonicalLayer(record);
    } else {
      assert DecodeLayers([]) == Ok([]) && EncodeLayers([]) == Ok([]);
    }
  }

  ghost predicate CanonicalExperts(records: seq<ExpertRecord>) {
    forall i :: 0 <= i < |records| ==> CanonicalExpert(records[i])
  }

  lemma {:induction false} ExpertsSnoc(i: seq<Bytes>, item: Bytes, r: seq<ExpertRecord>, record: ExpertRecord)
    ensures DecodeExperts(i + [item]) == Ok(r + [record]) <==> DecodeExperts(i) == Ok(r) && DecodeExpert(item) == Ok(record)
    ensures EncodeExperts(r + [record]) == Ok(i + [item]) <==> EncodeExperts(r) == Ok(i) && ExpertBytes(record) == Ok(item)
  {
    hide DecodeExpert, ExpertBytes;
    assert (i + [item])[..|i|] == i && (r + [record])[..|r|] == r;
    assert (i + [item])[|i|] == item && (r + [record])[|r|] == record;
    if DecodeExperts(i).Ok? && DecodeExpert(item).Ok? {
      SnocInjective(DecodeExperts(i).value, DecodeExpert(item).value, r, record);
    }
    if EncodeExperts(r).Ok? && ExpertBytes(record).Ok? {
      SnocInjective(EncodeExperts(r).value, ExpertBytes(record).value, i, item);
    }
  }

  lemma {:induction false} ExpertsCodec(items: seq<Bytes>, records: seq<ExpertRecord>)
    ensures DecodeExperts(items) == Ok(records) <==>
              CanonicalExperts(records) && EncodeExperts(records) == Ok(items)
  {
    hide DecodeExpert, ExpertBytes, CanonicalExpert;
    if items != [] && records != [] {
      var i, r := items[..|items| - 1], records[..|records| - 1];
      var item, record := items[|items| - 1], records[|records| - 1];
      hide DecodeExperts, EncodeExperts;
      ExpertsCodec(i, r);
      ExpertCodec(item, record);
      assert items == i + [item] && records == r + [record];
      ExpertsSnoc(i, item, r, record);
      assert CanonicalExperts(r + [record]) <==> CanonicalExperts(r) && CanonicalExpert(record);
    } else {
      assert DecodeExperts([]) == Ok([]) && EncodeExperts([]) == Ok([]);
    }
  }

  /** `b` stands in the file at a recorded place. */
  ghost predicate At(file: Bytes, offset: int, length: int, b: Bytes) {
    0 <= offset && 0 <= length && offset + length <= |file| && file[offset..offset + length] == b
  }

  /** The tensor directory of canonical records. */
  ghost predicate IsTensorDirectory(b: Bytes, records: seq<TensorRecord>) {
    && CanonicalTensors(records)
    && EncodeTensors(records).Ok? && EncodeDirectory(TENS, TENSOR_RECORD_BYTES, EncodeTensors(records).value) == Ok(b)
  }

  ghost predicate IsLayerDirectory(b: Bytes, records: seq<LayerRecord>) {
    && CanonicalLayers(records)
    && EncodeLayers(records).Ok? && EncodeDirectory(LAYR, LAYER_RECORD_BYTES, EncodeLayers(records).value) == Ok(b)
  }

  ghost predicate IsExpertDirectory(b: Bytes, records: seq<ExpertRecord>) {
    && CanonicalExperts(records)
    && EncodeExperts(records).Ok? && EncodeDirectory(EXPT, EXPERT_RECORD_BYTES, EncodeExperts(records).value) == Ok(b)
  }

  lemma {:induction false} TensorDirectoryCodec(b: Bytes, records: seq<TensorRecord>)
    ensures IsTensorDirectory(b, records) <==>
              && DecodeDirectory(b, TENS, TENSOR_RECORD_BYTES).Ok?
              && DecodeTensors(DecodeDirectory(b, TENS, TENSOR_RECORD_BYTES).value) == Ok(records)
  {
    hide CanonicalTensors, DecodeDirectory, EncodeDirectory, EncodeTensors, DecodeTensors;
    if DecodeDirectory(b, TENS, TENSOR_RECORD_BYTES).Ok? {
      var items := DecodeDirectory(b, TENS, TENSOR_RECORD_BYTES).value;
      DirectoryCodec(b, TENS, TENSOR_RECORD_BYTES, items);
      TensorsCodec(items, records);
    }
    if IsTensorDirectory(b, records) {
      var items := EncodeTensors(records).value;
      DirectoryCodec(b, TENS, TENSOR_RECORD_BYTES, items);
      TensorsCodec(items, records);
    }
  }

  lemma {:induction false} LayerDirectoryCodec(b: Bytes, records: seq<LayerRecord>)
    ensures IsLayerDirectory(b, records) <==>
              && DecodeDirectory(b, LAYR, LAYER_RECORD_BYTES).Ok?
              && DecodeLayers(DecodeDirectory(b, LAYR, LAYER_RECORD_BYTES).value) == Ok(records)
  {
    hide CanonicalLayers, DecodeDirectory, EncodeDirectory, EncodeLayers, DecodeLayers;
    if DecodeDirectory(b, LAYR, LAYER_RECORD_BYTES).Ok? {
      var items := DecodeDirectory(b, LAYR, LAYER_RECORD_BYTES).value;
      DirectoryCodec(b, LAYR, LAYER_RECORD_BYTES, items);
      LayersCodec(items, records);
    }
    if IsLayerDirectory(b, records) {
      var items := EncodeLayers(records).value;
      DirectoryCodec(b, LAYR, LAYER_RECORD_BYTES, items);
      LayersCodec(items, records);
    }
  }

  lemma {:induction false} ExpertDirectoryCodec(b: Bytes, records: seq<ExpertRecord>)
    ensures IsExpertDirectory(b, records) <==>
              && DecodeDirectory(b, EXPT, EXPERT_RECORD_BYTES).Ok?
              && DecodeExperts(DecodeDirectory(b, EXPT, EXPERT_RECORD_BYTES).value) == Ok(records)
  {
    hide CanonicalExperts, DecodeDirectory, EncodeDirectory, EncodeExperts, DecodeExperts;
    if DecodeDirectory(b, EXPT, EXPERT_RECORD_BYTES).Ok? {
      var items := DecodeDirectory(b, EXPT, EXPERT_RECORD_BYTES).value;
      DirectoryCodec(b, EXPT, EXPERT_RECORD_BYTES, items);
      ExpertsCodec(items, records);
    }
    if IsExpertDirectory(b, records) {
      var items := EncodeExperts(records).value;
      DirectoryCodec(b, EXPT, EXPERT_RECORD_BYTES, items);
      ExpertsCodec(items, records);
    }
  }

  /** The four regions stand where the superblock says. */
  ghost predicate RegionsAt(file: Bytes, s: Superblock, g: Regions) {
    && At(file, s.tensorDirectoryOffset, s.tensorDirectoryLength, g.tensors)
    && At(file, s.layerDirectoryOffset, s.layerDirectoryLength, g.layers)
    && At(file, s.expertDirectoryOffset, s.expertDirectoryLength, g.experts)
    && s.modelConfigLength == MODEL_CONFIG_BYTES && At(file, s.modelConfigOffset, s.modelConfigLength, g.config)
  }

  lemma {:induction false} RegionsRead(file: Bytes, s: Superblock, g: Regions)
    requires FieldsFit(s)
    ensures ReadRegions(file, s) == Ok(g) <==> RegionsAt(file, s, g)
  {
    SuperblockUnsigned(s);
    assert BodyFields(s)[0] >= 0 && BodyFields(s)[1] >= 0 && BodyFields(s)[2] >= 0 && BodyFields(s)[3] >= 0;
    assert BodyFields(s)[4] >= 0 && BodyFields(s)[5] >= 0 && BodyFields(s)[6] >= 0 && BodyFields(s)[7] >= 0;
  }

  /** The file is the encoding of `k`: its first block is the superblock's, and the
      regions the superblock names are the directories of the records. */
  ghost predicate IsEncoding(file: Bytes, k: K3XFile, g: Regions, crc: Crc) {
    && |file| >= SUPERBLOCK_BYTES && CanonicalSuperblock(k.superblock)
    && SuperblockBytes(k.superblock, crc) == Ok(file[..SUPERBLOCK_BYTES])
    && k.superblock.state == 1 && k.superblock.fileLength == |file|
    && RegionsAt(file, k.superblock, g)
    && IsTensorDirectory(g.tensors, k.tensors) && IsLayerDirectory(g.layers, k.layers)
    && IsExpertDirectory(g.experts, k.experts) && k.modelConfig == g.config
  }

  /** Reading a description and writing it are inverse, for whole files. */
  lemma {:induction false} DescribesIsEncoding(file: Bytes, k: K3XFile, g: Regions, crc: Crc)
    ensures Describes(file, k, g, crc) <==> IsEncoding(file, k, g, crc)
  {
    hide DecodeDirectory, DecodeTensors, DecodeLayers, DecodeExperts, CanonicalSuperblock, FieldsFit;
    hide IsTensorDirectory, IsLayerDirectory, IsExpertDirectory, RegionsAt, ReadRegions, DecodeSuperblock, SuperblockBytes;
    var block := file[..Min(SUPERBLOCK_BYTES, |file|)];
    SuperblockCodec(block, k.superblock, crc);
    TensorDirectoryCodec(g.tensors, k.tensors);
    LayerDirectoryCodec(g.layers, k.layers);
    ExpertDirectoryCodec(g.experts, k.experts);
    BlockSize(block, k.superblock, crc);
    if CanonicalSuperblock(k.superblock) && SuperblockBytes(k.superblock, crc) == Ok(block) {
      RegionsRead(file, k.superblock, g);
    }
  }

  lemma {:induction false} BlockSize(block: Bytes, s: Superblock, crc: Crc)
    ensures SuperblockBytes(s, crc) == Ok(block) ==> |block| == SUPERBLOCK_BYTES && FieldsFit(s)
  {
    hide CanonicalSuperblock;
    if SuperblockBytes(s, crc).Ok? {
      SuperblockLayout(s, crc);
    }
  }

  /** Everything `open` promises of a file it accepts as `k`. */
  ghost predicate Sound(file: Bytes, k: K3XFile, regions: Regions, crc: Crc, sha: Sha, verifyRoot: bool) {
    && IsEncoding(file, k, regions, crc)
    && AllBf16Plain(k.tensors)
    && (HasBf16(k.tensors) <==> k.superblock.requiredFeatures == 1)
    && GoodLayout(k.tensors, |file|, EXTENT_ALIGNMENT)
    && (forall i :: 0 <= i < |k.tensors| ==> Intact(file, k.tensors[i], crc))
    && sha(regions.tensors + regions.layers + regions.experts + regions.config) == k.superblock.directorySha256
    && (verifyRoot ==> sha(Masked(file)) == k.superblock.rootSha256)
  }

  /** What a description rests on. */
  lemma {:induction false} DescribedParts(file: Bytes, k: K3XFile, regions: Regions, crc: Crc)
    requires IsEncoding(file, k, regions, crc)
    ensures |file| >= SUPERBLOCK_BYTES
    ensures DecodeSuperblock(file[..SUPERBLOCK_BYTES], crc) == Ok(k.superblock)
    ensures k.superblock.state == 1 && k.superblock.fileLength == |file|
    ensures k.superblock.requiredFeatures in {0, 1}
    ensures forall r :: r in k.tensors ==>
              && CanonicalTensor(r)
              && r.dataOffset >= 0 && r.dataLength >= 0 && r.auxiliaryOffset >= 0 && r.auxiliaryLength >= 0
  {
    hide CanonicalTensor, DecodeSuperblock, SuperblockBytes, RegionsAt, IsLayerDirectory, IsExpertDirectory, EncodeTensors;
    SuperblockCodec(file[..SUPERBLOCK_BYTES], k.superblock, crc);
    forall r | r in k.tensors
      ensures CanonicalTensor(r)
      ensures r.dataOffset >= 0 && r.dataLength >= 0 && r.auxiliaryOffset >= 0 && r.auxiliaryLength >= 0
    {
      TensorUnsigned(r);
    }
  }

  method CheckBf16(records: seq<TensorRecord>) returns (hasBf16: bool, ok: bool)
    ensures ok <==> AllBf16Plain(records)
    ensures ok ==> (hasBf16 <==> HasBf16(records))
  {
    hasBf16 := false;
    for i := 0 to |records|
      invariant AllBf16Plain(records[..i])
      invariant hasBf16 <==> HasBf16(records[..i])
    {
      var record := records[i];
      assert records[..i + 1] == records[..i] + [record];
      if !record.dtype.Bf16? {
        assert HasBf16(records[..i + 1]) ==> HasBf16(records[..i]);
        assert HasBf16(records[..i]) ==> HasBf16(records[..i + 1]) by {
          if HasBf16(records[..i]) {
            var k :| 0 <= k < i && records[..i][k].dtype.Bf16?;
            assert records[..i + 1][k].dtype.Bf16?;
          }
        }
        continue;
      }
      hasBf16 := true;
      assert records[..i + 1][i].dtype.Bf16?;
      var values := 1;
      for j := 0 to |record.dimensions|
        invariant values == Product(record.dimensions[..j])
      {
        assert record.dimensions[..j + 1][..j] == record.dimensions[..j];
        values := values * record.dimensions[j];
      }
      assert record.dimensions[..|record.dimensions|] == record.dimensions;
      if record.quantization != Quantization.None || record.dataLength == 0
         || record.dataLength != record.logicalLength || record.logicalLength != values * 2
         || record.auxiliaryOffset != 0 || record.auxiliaryLength != 0 || record.auxiliaryCrc32c != 0
      {
        return hasBf16, false;
      }
    }
    assert records[..|records|] == records;
    return hasBf16, true;
  }

  method CheckContents(file: Bytes, records: seq<TensorRecord>, crc: Crc) returns (r: Result<()>)
    requires forall r :: r in records ==>
               r.dataOffset >= 0 && r.dataLength >= 0 && r.auxiliaryOffset >= 0 && r.auxiliaryLength >= 0
    ensures r.Ok? <==> forall i :: 0 <= i < |records| ==> Intact(file, records[i], crc)
  {
    for i := 0 to |records|
      invariant forall k :: 0 <= k < i ==> Intact(file, records[k], crc)
    {
      var record := records[i];
      var data :- ReadExact(file, record.dataOffset, record.dataLength);
      if crc(data) != record.dataCrc32c {
        return Err(DataCrcMismatch);
      }
      if record.auxiliaryLength != 0 {
        var auxiliary :- ReadExact(file, record.auxiliaryOffset, record.auxiliaryLength);
        if crc(auxiliary) != record.auxiliaryCrc32c {
          return Err(AuxiliaryCrcMismatch);
        }
      }
    }
    return Ok(());
  }

  method Open(file: Bytes, crc: Crc, sha: Sha, verifyRoot: bool) returns (r: Result<K3XFile>, ghost regions: Regions)
    ensures r.Ok? ==> Sound(file, r.value, regions, crc, sha, verifyRoot)
    ensures r.Err? ==> forall k, g :: !Sound(file, k, g, crc, sha, verifyRoot)
  {
    hide LoadTensors, LoadOthers, IsEncoding, GoodLayout, Masked;
    forall k, g ensures Describes(file, k, g, crc) <==> IsEncoding(file, k, g, crc) {
      DescribesIsEncoding(file, k, g, crc);
    }
    regions := Regions([], [], [], []);
    var loaded :- LoadTensors(file, crc);
    var (superblock, read, tensors) := loaded;
    regions := read;
    var hasBf16, plain := CheckBf16(tensors);
    if !plain || hasBf16 != (superblock.requiredFeatures == 1) {
      return Err(InvalidTensorFeature), regions;
    }
    var others :- LoadOthers(read);
    var (layers, experts) := others;
    ghost var k := K3XFile(superblock, tensors, layers, experts, read.config);
    DescribedParts(file, k, read, crc);
    var layout := ValidateExtentLayout(tensors, |file|, EXTENT_ALIGNMENT);
    if layout.Err? {
      return Err(layout.error), regions;
    }
    var contents := CheckContents(file, tensors, crc);
    if contents.Err? {
      return Err(contents.error), regions;
    }
    if sha(read.tensors + read.layers + read.experts + read.config) != superblock.directorySha256 {
      return Err(DirectoryDigestMismatch), regions;
    }
    if verifyRoot {
      var stream := new ByteStream(file);
      var root := RootSha256(stream, |file|, 1024 * 1024, sha);
      assert file[..|file|] == file;
      if root.value != superblock.rootSha256 {
        return Err(RootDigestMismatch), regions;
      }
    }
    return Ok(K3XFile(superblock, tensors, layers, experts, read.config)), regions;
  }

  /** A verified root digest names one file: two accepted files with the same
      stored root are byte for byte the same, unless they exhibit a collision. */
  lemma {:induction false} RootNamesTheFile(f: Bytes, g: Bytes, kf: K3XFile, kg: K3XFile, rf: Regions, rg: Regions, crc: Crc, sha: Sha)
    requires Sound(f, kf, rf, crc, sha, true) && Sound(g, kg, rg, crc, sha, true)
    requires kf.superblock.rootSha256 == kg.superblock.rootSha256
    ensures f == g || (Masked(f) != Masked(g) && sha(Masked(f)) == sha(Masked(g)))
  {
    hide IsEncoding, GoodLayout, Masked;
    DescribedParts(f, kf, rf, crc);
    DescribedParts(g, kg, rg, crc);
    if Masked(f) == Masked(g) {
      MaskPlusRootIsWhole(f, g, crc);
    }
  }

  /** The bytes an accepted file returns for a tensor: read_tensor_extents. */
  function ReadTensorExtents(file: Bytes, r: TensorRecord): Result<(Bytes, Bytes)>
    requires r.dataOffset >= 0 && r.dataLength >= 0 && r.auxiliaryOffset >= 0 && r.auxiliaryLength >= 0
  {
    var data :- ReadExact(file, r.dataOffset, r.dataLength);
    if r.auxiliaryLength == 0 then Ok((data, [])) else
    var auxiliary :- ReadExact(file, r.auxiliaryOffset, r.auxiliaryLength);
    Ok((data, auxiliary))
  }

  /** After acceptance every tensor reads, with the stored checksums, and all
      tensors together hold no more bytes than the file. */
  lemma {:induction false} AcceptedTensorsRead(file: Bytes, k: K3XFile, g: Regions, crc: Crc, sha: Sha, verifyRoot: bool, i: nat)
    requires Sound(file, k, g, crc, sha, verifyRoot) && i < |k.tensors|
    ensures var r := k.tensors[i];
            && r.dataOffset >= 0 && r.dataLength >= 0 && r.auxiliaryOffset >= 0 && r.auxiliaryLength >= 0
            && ReadTensorExtents(file, r).Ok?
            && r.dataOffset + r.dataLength <= |file|
            && ReadTensorExtents(file, r).value.0 == file[r.dataOffset..r.dataOffset + r.dataLength]
            && crc(ReadTensorExtents(file, r).value.0) == r.dataCrc32c
            && (r.auxiliaryLength == 0 ==> ReadTensorExtents(file, r).value.1 == [])
            && (r.auxiliaryLength != 0 ==>
                  && r.auxiliaryOffset + r.auxiliaryLength <= |file|
                  && ReadTensorExtents(file, r).value.1 == file[r.auxiliaryOffset..r.auxiliaryOffset + r.auxiliaryLength])
            && (r.auxiliaryLength != 0 ==> crc(ReadTensorExtents(file, r).value.1) == r.auxiliaryCrc32c)
    ensures StoredBytes(AllExtents(k.tensors)) <= |file|
  {
    hide IsEncoding, CanonicalTensor, GoodLayout, AllBf16Plain, HasBf16, Masked, StoredBytes, AllExtents;
    DescribedParts(file, k, g, crc);
    assert k.tensors[i] in k.tensors;
    StoredFits(k.tensors, |file|, EXTENT_ALIGNMENT);
    assert Intact(file, k.tensors[i], crc);
  }
}
