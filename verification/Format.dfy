// The fixed-layout records of the K3X v1 binary format
// (converter/k3x_converter/format.py).
//
// Encoders fill a zeroed block in place and are proved to write exactly the byte
// string of a `...Bytes` function.  Decoders are proved to be the exact inverse:
// a byte string decodes to a record if and only if the record is canonical and
// encodes to that byte string.

module Format {
  import opened Arithmetic
  import opened Struct
  import opened Wrappers

  type Crc = Bytes -> int

  const SUPERBLOCK_BYTES := 4096
  const EXTENT_ALIGNMENT := 4096
  const TENSOR_RECORD_BYTES := 128
  const LAYER_RECORD_BYTES := 64
  const EXPERT_RECORD_BYTES := 64
  const MODEL_CONFIG_BYTES := 256
  const MAGIC: Bytes := [0x4B, 0x33, 0x58, 0x43, 0x48, 0x4B, 0x50, 0x54]  // "K3XCHKPT"

  // ---------------------------------------------------------------- tensor

  datatype DType = Fp32 | Uint8 | Bf16 {
    function Code(): int {
      match this case Fp32 => 1 case Uint8 => 2 case Bf16 => 3
    }
  }

  datatype Quantization = None | Mxfp4 {
    function Code(): int {
      match this case None => 0 case Mxfp4 => 1
    }
  }

  datatype TensorRecord = TensorRecord(
    tensorId: int, role: int, dtype: DType, quantization: Quantization,
    dimensions: seq<int>, layerId: int, expertId: int,
    dataOffset: int, dataLength: int, logicalLength: int,
    auxiliaryOffset: int, auxiliaryLength: int,
    dataCrc32c: int, auxiliaryCrc32c: int, flags: int)

  const TENSOR_HEAD: Format := [U64, U32, U16, U16] + [U8, U8, U16, I32, I32, U32]
  const TENSOR_TAIL: Format := [U64, U64, U64, U64] + [U64, U64, U64, U64, U64, U32, U32]

  function PaddedDimensions(dims: seq<int>): (r: seq<int>)
    requires |dims| <= 4
    ensures |r| == 4
  {
    dims + [0, 0, 0, 0][|dims|..]
  }

  function TensorHead(r: TensorRecord): seq<int> {
    [r.tensorId, r.role, r.dtype.Code(), r.quantization.Code(), |r.dimensions|,
     r.flags, 0, r.layerId, r.expertId, 0]
  }

  function TensorTail(r: TensorRecord): seq<int>
    requires |r.dimensions| <= 4
  {
    PaddedDimensions(r.dimensions) +
    [r.dataOffset, r.dataLength, r.logicalLength, r.auxiliaryOffset, r.auxiliaryLength,
     r.dataCrc32c, r.auxiliaryCrc32c]
  }

  function TensorBytes(r: TensorRecord): Result<Bytes> {
    if |r.dimensions| > 4 then Err(InvalidTensorRank)
    else if !AllFit(TENSOR_HEAD, TensorHead(r)) || !AllFit(TENSOR_TAIL, TensorTail(r)) then Err(StructRange)
    else Ok(Pack(TENSOR_HEAD, TensorHead(r)) + Pack(TENSOR_TAIL, TensorTail(r)) + Zeros(16))
  }

  lemma {:induction false} TensorHeadSize()
    ensures Size(TENSOR_HEAD) == 32
  {
    SizeConcat([U64, U32, U16, U16], [U8, U8, U16, I32, I32, U32]);
    assert Size([U64, U32, U16, U16]) == 16;
    assert Size([U8, U8, U16, I32, I32, U32]) == 16;
  }

  lemma {:induction false} TensorTailSize()
    ensures Size(TENSOR_TAIL) == 80
  {
    SizeConcat([U64, U64, U64, U64], [U64, U64, U64, U64, U64, U32, U32]);
    assert Size([U64, U64, U64, U64]) == 32;
    assert Size([U64, U64, U64, U64, U64, U32, U32]) == 48;
  }

  /** A record that a K3X v1 file can hold: no role, no flags, every field in range. */
  predicate CanonicalTensor(r: TensorRecord) {
    && r.role == 0 && r.flags == 0
    && |r.dimensions| <= 4
    && AllFit(TENSOR_HEAD, TensorHead(r))
    && AllFit(TENSOR_TAIL, TensorTail(r))
  }

  function DTypeOf(code: int): Option<DType> {
    if code == 1 then Some(Fp32) else if code == 2 then Some(Uint8) else if code == 3 then Some(Bf16) else Option.None
  }

  function QuantizationOf(code: int): Option<Quantization> {
    if code == 0 then Some(Quantization.None) else if code == 1 then Some(Mxfp4) else Option.None
  }

  function DecodeTensor(data: Bytes): Result<TensorRecord> {
    if |data| != TENSOR_RECORD_BYTES then Err(InvalidTensorRecord) else
    TensorHeadSize();
    TensorTailSize();
    PackUnpack(TENSOR_HEAD, data[..32]);
    var h := Unpack(TENSOR_HEAD, data[..32]);
    if h[1] != 0 then Err(UnsupportedTensorRole)
    else if h[5] != 0 then Err(UnsupportedTensorFlags)
    else if h[6] != 0 || h[9] != 0 || !AllZero(data[112..]) then Err(NonzeroReservedBytes)
    else if h[4] > 4 then Err(InvalidTensorRank)
    else
    var v := Unpack(TENSOR_TAIL, data[32..112]);
    if !(forall i :: h[4] <= i < 4 ==> v[i] == 0) then Err(NonzeroUnusedDimension)
    else if DTypeOf(h[2]) == Option.None || QuantizationOf(h[3]) == Option.None then Err(InvalidTensorEnum)
    else Ok(TensorRecord(h[0], h[1], DTypeOf(h[2]).value, QuantizationOf(h[3]).value, v[..h[4]],
                         h[7], h[8], v[4], v[5], v[6], v[7], v[8], v[9], v[10], h[5]))
  }

  lemma {:induction false} TensorDecodes(r: TensorRecord)
    requires CanonicalTensor(r)
    ensures TensorBytes(r).Ok? && DecodeTensor(TensorBytes(r).value) == Ok(r)
  {
    hide Pack, Unpack, Size;
    TensorHeadSize();
    TensorTailSize();
    var head, tail := Pack(TENSOR_HEAD, TensorHead(r)), Pack(TENSOR_TAIL, TensorTail(r));
    var data := head + tail + Zeros(16);
    assert data[..32] == head && data[32..112] == tail && data[112..] == Zeros(16);
    UnpackPack(TENSOR_HEAD, TensorHead(r));
    UnpackPack(TENSOR_TAIL, TensorTail(r));
    PackUnpack(TENSOR_HEAD, data[..32]);
    assert Unpack(TENSOR_TAIL, data[32..112])[..|r.dimensions|] == r.dimensions;
    assert forall i :: |r.dimensions| <= i < 4 ==> PaddedDimensions(r.dimensions)[i] == 0;
    assert AllZero(data[112..]);
  }

  lemma {:induction false} TensorEncodes(data: Bytes)
    requires DecodeTensor(data).Ok?
    ensures CanonicalTensor(DecodeTensor(data).value) && TensorBytes(DecodeTensor(data).value) == Ok(data)
  {
    hide Pack, Unpack, Size;
    TensorHeadSize();
    TensorTailSize();
    var r := DecodeTensor(data).value;
    PackUnpack(TENSOR_HEAD, data[..32]);
    PackUnpack(TENSOR_TAIL, data[32..112]);
    assert TensorHead(r) == Unpack(TENSOR_HEAD, data[..32]);
    assert TensorTail(r) == Unpack(TENSOR_TAIL, data[32..112]);
    assert data[112..] == Zeros(16);
    assert data == data[..32] + data[32..112] + data[112..];
  }

  /** Decoding is the exact inverse of encoding. */
  lemma {:induction false} TensorCodec(data: Bytes, r: TensorRecord)
    ensures DecodeTensor(data) == Ok(r) <==> CanonicalTensor(r) && TensorBytes(r) == Ok(data)
  {
    if CanonicalTensor(r) {
      TensorDecodes(r);
    }
    if DecodeTensor(data).Ok? {
      TensorEncodes(data);
    }
  }

  method EncodeTensor(r: TensorRecord) returns (out: Result<Bytes>)
    ensures out == TensorBytes(r)
  {
    if |r.dimensions| > 4 {
      return Err(InvalidTensorRank);
    }
    TensorHeadSize();
    TensorTailSize();
    out := PackRecord(TENSOR_RECORD_BYTES, TENSOR_HEAD, TensorHead(r), TENSOR_TAIL, TensorTail(r));
  }

  // ----------------------------------------------------------------- layer

  datatype LayerRecord = LayerRecord(
    layerIndex: int, attentionKind: int, ffnKind: int, firstTensor: int, tensorCount: int,
    firstExpert: int, expertCount: int, residualWriteIndex: int, flags: int)

  const LAYER: Format := [U32, U16, U16] + [U32, U32, U32, U32, I32, U32]

  function LayerFields(r: LayerRecord): seq<int> {
    [r.layerIndex, r.attentionKind, r.ffnKind, r.firstTensor, r.tensorCount,
     r.firstExpert, r.expertCount, r.residualWriteIndex, r.flags]
  }

  lemma {:induction false} LayerSize()
    ensures Size(LAYER) == 32
  {
    SizeConcat([U32, U16, U16], [U32, U32, U32, U32, I32, U32]);
    assert Size([U32, U16, U16]) == 8;
    assert Size([U32, U32, U32, U32, I32, U32]) == 24;
  }

  function LayerBytes(r: LayerRecord): Result<Bytes> {
    if !AllFit(LAYER, LayerFields(r)) then Err(StructRange)
    else Ok(Pack(LAYER, LayerFields(r)) + Zeros(32))
  }

  predicate CanonicalLayer(r: LayerRecord) {
    r.attentionKind in {1, 2} && r.ffnKind in {1, 2} && r.flags == 0 && AllFit(LAYER, LayerFields(r))
  }

  function DecodeLayer(data: Bytes): Result<LayerRecord> {
    if |data| != LAYER_RECORD_BYTES || !AllZero(data[32..]) then Err(InvalidLayerRecord) else
    LayerSize();
    var v := Unpack(LAYER, data[..32]);
    if v[1] !in {1, 2} || v[2] !in {1, 2} then Err(InvalidLayerEnum)
    else if v[8] != 0 then Err(UnsupportedLayerFlags)
    else Ok(LayerRecord(v[0], v[1], v[2], v[3], v[4], v[5], v[6], v[7], v[8]))
  }

  lemma {:induction false} LayerCodec(data: Bytes, r: LayerRecord)
    ensures DecodeLayer(data) == Ok(r) <==> CanonicalLayer(r) && LayerBytes(r) == Ok(data)
  {
    hide Pack, Unpack, Size;
    LayerSize();
    if CanonicalLayer(r) && LayerBytes(r) == Ok(data) {
      assert data[..32] == Pack(LAYER, LayerFields(r)) && data[32..] == Zeros(32);
      UnpackPack(LAYER, LayerFields(r));
    }
    if DecodeLayer(data) == Ok(r) {
      PackUnpack(LAYER, data[..32]);
      assert LayerFields(r) == Unpack(LAYER, data[..32]);
      assert data[32..] == Zeros(32) && data == data[..32] + data[32..];
    }
  }

  method EncodeLayer(r: LayerRecord) returns (out: Result<Bytes>)
    ensures out == LayerBytes(r)
  {
    LayerSize();
    out := PackRecord(LAYER_RECORD_BYTES, LAYER, LayerFields(r), [], []);
    assert out.Ok? ==> Pack(LAYER, LayerFields(r)) + Pack([], []) == Pack(LAYER, LayerFields(r));
  }

  // ---------------------------------------------------------------- expert

  datatype ExpertRecord = ExpertRecord(
    layerIndex: int, expertId: int, physicalOrder: int, flags: int,
    gateTensorId: int, upTensorId: int, downTensorId: int, profileFrequencyQ32: int)

  const EXPERT: Format := [U32, U32, U32, U32] + [U64, U64, U64, U64]

  function ExpertFields(r: ExpertRecord): seq<int> {
    [r.layerIndex, r.expertId, r.physicalOrder, r.flags,
     r.gateTensorId, r.upTensorId, r.downTensorId, r.profileFrequencyQ32]
  }

  lemma {:induction false} ExpertSize()
    ensures Size(EXPERT) == 48
  {
    SizeConcat([U32, U32, U32, U32], [U64, U64, U64, U64]);
    assert Size([U32, U32, U32, U32]) == 16;
    assert Size([U64, U64, U64, U64]) == 32;
  }

  function ExpertBytes(r: ExpertRecord): Result<Bytes> {
    if !AllFit(EXPERT, ExpertFields(r)) then Err(StructRange)
    else Ok(Pack(EXPERT, ExpertFields(r)) + Zeros(16))
  }

  predicate CanonicalExpert(r: ExpertRecord) {
    r.flags == 0 && AllFit(EXPERT, ExpertFields(r))
  }

  function DecodeExpert(data: Bytes): Result<ExpertRecord> {
    if |data| != EXPERT_RECORD_BYTES || !AllZero(data[48..]) then Err(InvalidExpertRecord) else
    ExpertSize();
    var v := Unpack(EXPERT, data[..48]);
    if v[3] != 0 then Err(UnsupportedExpertFlags)
    else Ok(ExpertRecord(v[0], v[1], v[2], v[3], v[4], v[5], v[6], v[7]))
  }

  lemma {:induction false} ExpertCodec(data: Bytes, r: ExpertRecord)
    ensures DecodeExpert(data) == Ok(r) <==> CanonicalExpert(r) && ExpertBytes(r) == Ok(data)
  {
    hide Pack, Unpack, Size;
    ExpertSize();
    if CanonicalExpert(r) && ExpertBytes(r) == Ok(data) {
      assert data[..48] == Pack(EXPERT, ExpertFields(r)) && data[48..] == Zeros(16);
      UnpackPack(EXPERT, ExpertFields(r));
    }
    if DecodeExpert(data) == Ok(r) {
      PackUnpack(EXPERT, data[..48]);
      assert ExpertFields(r) == Unpack(EXPERT, data[..48]);
      assert data[48..] == Zeros(16) && data == data[..48] + data[48..];
    }
  }

  method EncodeExpert(r: ExpertRecord) returns (out: Result<Bytes>)
    ensures out == ExpertBytes(r)
  {
    ExpertSize();
    out := PackRecord(EXPERT_RECORD_BYTES, EXPERT, ExpertFields(r), [], []);
    assert out.Ok? ==> Pack(EXPERT, ExpertFields(r)) + Pack([], []) == Pack(EXPERT, ExpertFields(r));
  }

  // ------------------------------------------------------------ directories

  const DIRECTORY: Format := [U32] + [U64]

  lemma {:induction false} DirectorySize()
    ensures Size(DIRECTORY) == 12
  {
    SizeConcat([U32], [U64]);
  }

  function Concat(items: seq<Bytes>): Bytes {
    if items == [] then [] else items[0] + Concat(items[1..])
  }

  predicate Uniform(items: seq<Bytes>, size: nat) {
    forall i :: 0 <= i < |items| ==> |items[i]| == size
  }

  function EncodeDirectory(tag: Bytes, recordSize: nat, items: seq<Bytes>): Result<Bytes> {
    if |tag| != 4 || !Uniform(items, recordSize) then Err(InvalidDirectory)
    else if !AllFit(DIRECTORY, [recordSize, |items|]) then Err(StructRange)
    else Ok(tag + Pack(DIRECTORY, [recordSize, |items|]) + Concat(items))
  }

  function DecodeDirectory(data: Bytes, tag: Bytes, recordSize: nat): Result<seq<Bytes>>
    requires recordSize > 0
  {
    if |data| < 16 then Err(TruncatedDirectory) else
    DirectorySize();
    PackUnpack(DIRECTORY, data[4..16]);
    var v := Unpack(DIRECTORY, data[4..16]);
    if data[..4] != tag || v[0] != recordSize then Err(InvalidDirectoryHeader)
    else if v[1] > (|data| - 16) / recordSize || |data| != 16 + v[1] * recordSize then Err(InvalidDirectoryLength)
    else Ok(Split(data[16..], recordSize, v[1]))
  }

  /** `count` consecutive items of `size` bytes. */
  function Split(data: Bytes, size: nat, count: nat): (items: seq<Bytes>)
    ensures Uniform(items, size)
  {
    if count == 0 || |data| < size then [] else [data[..size]] + Split(data[size..], size, count - 1)
  }

  function Times(count: nat, size: nat): nat {
    if count == 0 then 0 else size + Times(count - 1, size)
  }

  lemma {:induction false} TimesIsProduct(count: nat, size: nat)
    ensures Times(count, size) == count * size
  {
    if count > 0 {
      TimesIsProduct(count - 1, size);
      assert count * size == size + (count - 1) * size;
    }
  }

  lemma {:induction false} SplitConcat(items: seq<Bytes>, size: nat)
    requires Uniform(items, size)
    ensures |Concat(items)| == Times(|items|, size) && Split(Concat(items), size, |items|) == items
  {
    if items != [] {
      SplitConcat(items[1..], size);
      var data := Concat(items);
      assert data[..size] == items[0] && data[size..] == Concat(items[1..]);
      assert items == [items[0]] + items[1..];
    }
  }

  lemma {:induction false} ConcatSplit(data: Bytes, size: nat, count: nat)
    requires |data| == Times(count, size)
    ensures |Split(data, size, count)| == count && Concat(Split(data, size, count)) == data
  {
    if count > 0 {
      ConcatSplit(data[size..], size, count - 1);
      var rest := Split(data[size..], size, count - 1);
      assert ([data[..size]] + rest)[1..] == rest;
      assert data == data[..size] + data[size..];
    }
  }

  lemma {:induction false} DirectoryDecodes(data: Bytes, tag: Bytes, size: nat, items: seq<Bytes>)
    requires size > 0 && EncodeDirectory(tag, size, items) == Ok(data)
    ensures DecodeDirectory(data, tag, size) == Ok(items)
  {
    hide Pack, Unpack, Size, Concat, Split;
    DirectorySize();
    var head := Pack(DIRECTORY, [size, |items|]);
    SplitConcat(items, size);
    TimesIsProduct(|items|, size);
    assert data[..4] == tag && data[4..16] == head && data[16..] == Concat(items);
    UnpackPack(DIRECTORY, [size, |items|]);
    Division(|items| * size, size, |items|, 0);
  }

  lemma {:induction false} DirectoryEncodes(data: Bytes, tag: Bytes, size: nat, items: seq<Bytes>)
    requires size > 0 && |tag| == 4 && DecodeDirectory(data, tag, size) == Ok(items)
    ensures EncodeDirectory(tag, size, items) == Ok(data)
  {
    hide Pack, Unpack, Size, Concat, Split;
    DirectorySize();
    PackUnpack(DIRECTORY, data[4..16]);
    var count := Unpack(DIRECTORY, data[4..16])[1];
    TimesIsProduct(count, size);
    ConcatSplit(data[16..], size, count);
    assert Unpack(DIRECTORY, data[4..16]) == [size, |items|];
    assert data == data[..4] + data[4..16] + data[16..];
  }

  /** A directory decodes to exactly the items it was encoded from. */
  lemma {:induction false} DirectoryCodec(data: Bytes, tag: Bytes, size: nat, items: seq<Bytes>)
    requires size > 0 && |tag| == 4
    ensures DecodeDirectory(data, tag, size) == Ok(items) <==> EncodeDirectory(tag, size, items) == Ok(data)
  {
    if EncodeDirectory(tag, size, items) == Ok(data) {
      DirectoryDecodes(data, tag, size, items);
    }
    if DecodeDirectory(data, tag, size) == Ok(items) {
      DirectoryEncodes(data, tag, size, items);
    }
  }

  // ------------------------------------------------------------ superblock

  datatype Superblock = Superblock(
    sourceSha256: Bytes, fileUuid: Bytes, state: int, requiredFeatures: int, optionalFeatures: int,
    tensorDirectoryOffset: int, tensorDirectoryLength: int,
    layerDirectoryOffset: int, layerDirectoryLength: int,
    expertDirectoryOffset: int, expertDirectoryLength: int,
    modelConfigOffset: int, modelConfigLength: int,
    payloadOffset: int, fileLength: int,
    directorySha256: Bytes, rootSha256: Bytes)

  const SB_HEAD: Format := [U16, U16, U32, U32] + [U32, U64, U64]
  const SB_BODY: Format := [U64, U64, U64, U64, U64] + [U64, U64, U64, U64, U64]
  const SB_CRC: Format := [U32] + []

  lemma {:induction false} SuperblockSizes()
    ensures Size(SB_HEAD) == 32 && Size(SB_BODY) == 80 && Size(SB_CRC) == 4
  {
    SizeConcat([U16, U16, U32, U32], [U32, U64, U64]);
    SizeConcat([U64, U64, U64, U64, U64], [U64, U64, U64, U64, U64]);
    SizeConcat([U32], []);
    assert Size([U16, U16, U32, U32]) == 12;
    assert Size([U32, U64, U64]) == 20;
    assert Size([U64, U64, U64, U64, U64]) == 40;
  }

  function HeadFields(s: Superblock): seq<int> {
    [1, 0, SUPERBLOCK_BYTES, EXTENT_ALIGNMENT, s.state, s.requiredFeatures, s.optionalFeatures]
  }

  function BodyFields(s: Superblock): seq<int> {
    [s.tensorDirectoryOffset, s.tensorDirectoryLength, s.layerDirectoryOffset, s.layerDirectoryLength,
     s.expertDirectoryOffset, s.expertDirectoryLength, s.modelConfigOffset, s.modelConfigLength,
     s.payloadOffset, s.fileLength]
  }

  predicate GoodIdentity(s: Superblock) {
    |s.sourceSha256| == 32 && |s.fileUuid| == 16
  }

  predicate GoodDigests(s: Superblock) {
    |s.directorySha256| == 32 && |s.rootSha256| == 32
  }

  predicate FieldsFit(s: Superblock) {
    AllFit(SB_HEAD, HeadFields(s)) && AllFit(SB_BODY, BodyFields(s))
  }

  /** The first 4092 bytes: everything the checksum covers. */
  function ChecksummedBytes(s: Superblock): Bytes
    requires FieldsFit(s)
  {
    MAGIC + Pack(SB_HEAD, HeadFields(s)) + s.fileUuid + s.sourceSha256 +
    Pack(SB_BODY, BodyFields(s)) + s.directorySha256 + s.rootSha256 + Zeros(3860)
  }

  function SuperblockBytes(s: Superblock, crc: Crc): Result<Bytes> {
    if !GoodIdentity(s) then Err(InvalidSuperblockIdentity)
    else if !GoodDigests(s) then Err(InvalidSuperblockDigest)
    else if !FieldsFit(s) || !AllFit(SB_CRC, [crc(ChecksummedBytes(s))]) then Err(StructRange)
    else Ok(ChecksummedBytes(s) + Pack(SB_CRC, [crc(ChecksummedBytes(s))]))
  }

  predicate CanonicalSuperblock(s: Superblock) {
    GoodIdentity(s) && GoodDigests(s) && FieldsFit(s) && s.requiredFeatures in {0, 1}
  }

  function DecodeSuperblock(data: Bytes, crc: Crc): Result<Superblock> {
    if |data| != SUPERBLOCK_BYTES then Err(TruncatedSuperblock)
    else if data[..8] != MAGIC then Err(BadMagic) else
    SuperblockSizes();
    var h := Unpack(SB_HEAD, data[8..40]);
    if h[0] != 1 || h[1] != 0 then Err(UnsupportedVersion)
    else if h[2] != SUPERBLOCK_BYTES || h[3] != EXTENT_ALIGNMENT then Err(InvalidSuperblockLayout)
    else if crc(data[..4092]) != Unpack(SB_CRC, data[4092..])[0] then Err(SuperblockCrcMismatch)
    else if !AllZero(data[232..4092]) then Err(NonzeroReservedBytes)
    else if h[5] !in {0, 1} then Err(UnsupportedRequiredFeature)
    else
    var v := Unpack(SB_BODY, data[88..168]);
    Ok(Superblock(data[56..88], data[40..56], h[4], h[5], h[6],
                  v[0], v[1], v[2], v[3], v[4], v[5], v[6], v[7], v[8], v[9],
                  data[168..200], data[200..232]))
  }

  /** Where the fields of an encoded superblock lie. */
  lemma {:induction false} SuperblockLayout(s: Superblock, crc: Crc)
    requires SuperblockBytes(s, crc).Ok?
    ensures var data := SuperblockBytes(s, crc).value;
            && |data| == SUPERBLOCK_BYTES
            && data[..8] == MAGIC
            && data[8..40] == Pack(SB_HEAD, HeadFields(s))
            && data[40..56] == s.fileUuid && data[56..88] == s.sourceSha256
            && data[88..168] == Pack(SB_BODY, BodyFields(s))
            && data[168..200] == s.directorySha256 && data[200..232] == s.rootSha256
            && data[232..4092] == Zeros(3860)
            && data[..4092] == ChecksummedBytes(s)
            && data[4092..] == Pack(SB_CRC, [crc(ChecksummedBytes(s))])
  {
    hide Pack, Unpack, Size;
    SuperblockSizes();
  }

  lemma {:induction false} SuperblockDecodes(s: Superblock, crc: Crc)
    requires CanonicalSuperblock(s) && SuperblockBytes(s, crc).Ok?
    ensures DecodeSuperblock(SuperblockBytes(s, crc).value, crc) == Ok(s)
  {
    hide Pack, Unpack, Size, ChecksummedBytes;
    SuperblockSizes();
    SuperblockLayout(s, crc);
    UnpackPack(SB_HEAD, HeadFields(s));
    UnpackPack(SB_BODY, BodyFields(s));
    UnpackPack(SB_CRC, [crc(ChecksummedBytes(s))]);
  }

  lemma Join(data: Bytes, m: nat, n: nat)
    requires m <= n <= |data|
    ensures data[..m] + data[m..n] == data[..n]
  {
  }

  lemma {:induction false} SuperblockEncodes(data: Bytes, crc: Crc)
    requires DecodeSuperblock(data, crc).Ok?
    ensures CanonicalSuperblock(DecodeSuperblock(data, crc).value)
    ensures SuperblockBytes(DecodeSuperblock(data, crc).value, crc) == Ok(data)
  {
    hide Pack, Unpack, Size;
    SuperblockSizes();
    var s := DecodeSuperblock(data, crc).value;
    PackUnpack(SB_HEAD, data[8..40]);
    PackUnpack(SB_BODY, data[88..168]);
    PackUnpack(SB_CRC, data[4092..]);
    assert HeadFields(s) == Unpack(SB_HEAD, data[8..40]);
    assert BodyFields(s) == Unpack(SB_BODY, data[88..168]);
    assert [crc(data[..4092])] == Unpack(SB_CRC, data[4092..]);
    assert data[232..4092] == Zeros(3860);
    Join(data, 8, 40);
    Join(data, 40, 56);
    Join(data, 56, 88);
    Join(data, 88, 168);
    Join(data, 168, 200);
    Join(data, 200, 232);
    Join(data, 232, 4092);
    assert data == data[..4092] + data[4092..];
  }

  /** A superblock decodes if and only if it is the encoding of a canonical one. */
  lemma {:induction false} SuperblockCodec(data: Bytes, s: Superblock, crc: Crc)
    ensures DecodeSuperblock(data, crc) == Ok(s) <==> CanonicalSuperblock(s) && SuperblockBytes(s, crc) == Ok(data)
  {
    if CanonicalSuperblock(s) && SuperblockBytes(s, crc) == Ok(data) {
      SuperblockDecodes(s, crc);
    }
    if DecodeSuperblock(data, crc) == Ok(s) {
      SuperblockEncodes(data, crc);
    }
  }

  /** The identity, offsets and digests, in the order the encoder writes them. */
  method FillIdentity(s: Superblock, block: array<byte>) returns (ok: bool)
    requires GoodIdentity(s) && block[..] == Zeros(4096)
    modifies block
    ensures ok <==> AllFit(SB_HEAD, HeadFields(s))
    ensures ok ==>
              block[..] == (MAGIC + Pack(SB_HEAD, HeadFields(s)) + s.fileUuid + s.sourceSha256) + Zeros(4008)
  {
    hide Pack, Size, Overwrite, Zeros;
    SuperblockSizes();
    assert [] + Zeros(4096) == Zeros(4096) && [] + MAGIC == MAGIC;
    Store(block, 0, MAGIC);
    OverwriteNext([], MAGIC, 4096);
    ok := PackInto(SB_HEAD, block, 8, HeadFields(s));
    if ok {
      ghost var done := MAGIC + Pack(SB_HEAD, HeadFields(s));
      OverwriteNext(MAGIC, Pack(SB_HEAD, HeadFields(s)), 4088);
      Store(block, 40, s.fileUuid);
      OverwriteNext(done, s.fileUuid, 4056);
      Store(block, 56, s.sourceSha256);
      OverwriteNext(done + s.fileUuid, s.sourceSha256, 4040);
    }
  }

  method EncodeSuperblock(s: Superblock, crc: Crc) returns (out: Result<Bytes>)
    ensures out == SuperblockBytes(s, crc)
  {
    hide Pack, Size, Overwrite, Zeros;
    if |s.sourceSha256| != 32 || |s.fileUuid| != 16 {
      return Err(InvalidSuperblockIdentity);
    }
    if |s.directorySha256| != 32 || |s.rootSha256| != 32 {
      return Err(InvalidSuperblockDigest);
    }
    SuperblockSizes();
    var block := new byte[SUPERBLOCK_BYTES](_ => 0);
    assert block[..] == Zeros(4096) by { AllZeros(block[..]); }
    var ok := FillIdentity(s, block);
    if !ok {
      return Err(StructRange);
    }
    ghost var done := MAGIC + Pack(SB_HEAD, HeadFields(s)) + s.fileUuid + s.sourceSha256;
    ok := PackInto(SB_BODY, block, 88, BodyFields(s));
    if !ok {
      return Err(StructRange);
    }
    OverwriteNext(done, Pack(SB_BODY, BodyFields(s)), 4008);
    done := done + Pack(SB_BODY, BodyFields(s));
    Store(block, 168, s.directorySha256);
    OverwriteNext(done, s.directorySha256, 3928);
    done := done + s.directorySha256;
    Store(block, 200, s.rootSha256);
    OverwriteNext(done, s.rootSha256, 3896);
    SplitZeros(done + s.rootSha256, 3860, 4);
    assert block[..4092] == ChecksummedBytes(s);
    ok := PackInto(SB_CRC, block, 4092, [crc(block[..4092])]);
    if !ok {
      return Err(StructRange);
    }
    OverwriteNext(ChecksummedBytes(s), Pack(SB_CRC, [crc(ChecksummedBytes(s))]), 4);
    NoZeros(ChecksummedBytes(s) + Pack(SB_CRC, [crc(ChecksummedBytes(s))]));
    return Ok(block[..]);
  }
}
