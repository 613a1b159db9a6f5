// Where every field of a K3X v1 record lies, byte by byte, and exactly which records
// the decoders accept (converter/k3x_converter/format.py).
//
// The codec lemmas say that reading undoes writing; these say what is written where.

module Offsets {
  import opened Arithmetic
  import opened Records = Format
  import opened Struct
  import opened Wrappers

  // ------------------------------------------------------- one integer

  /** Byte `j` of an unsigned integer is its base-256 digit `j`, lowest first. */
  lemma {:induction false} DigitAt(value: nat, width: nat, j: nat)
    requires j < width
    ensures LittleEndian(value, width)[j] == value / Pow256(j) % 256
  {
    if j > 0 {
      DigitAt(value / 256, width - 1, j - 1);
      DivideTwice(value, 256, Pow256(j - 1));
    }
  }

  lemma {:induction false} DivideTwice(n: nat, a: nat, b: nat)
    requires a > 0 && b > 0
    ensures a * b > 0 && n / a / b == n / (a * b)
  {
    var q, r := n / a, n % a;
    var t, s := q / b, q % b;
    Regroup(a, b, t, s);
    Within(a, s, b);
    Division(n, a * b, t, a * s + r);
  }

  lemma Regroup(a: nat, b: nat, t: nat, s: nat)
    ensures a * (b * t + s) == (a * b) * t + a * s
  {
  }

  /** A multiple below the b-th is at least `a` below it. */
  lemma {:induction false} Within(a: nat, s: nat, b: nat)
    requires s < b
    ensures 0 <= a * s && a * s + a <= a * b
  {
    var d := b - s - 1;
    assert a * b == a * s + a + a * d;
  }

  /** A packed value is its residue, little-endian; a negative one in two's complement. */
  lemma {:induction false} ByteOrder(c: Code, v: int, j: nat)
    requires Fits(c, v) && j < c.Width()
    ensures PackOne(c, v)[j] == v % Modulus(c) / Pow256(j) % 256
  {
    hide LittleEndian;
    if v < 0 {
      Division(v, Modulus(c), -1, v + Modulus(c));
    } else {
      Division(v, Modulus(c), 0, v);
    }
    DigitAt(v % Modulus(c), c.Width(), j);
  }

  /** `value` stands at byte `at`, `width` bytes wide. */
  predicate FieldAt(data: Bytes, at: nat, width: nat, code: Code, value: int) {
    && code.Width() == width && Fits(code, value) && at + width <= |data|
    && data[at..at + width] == PackOne(code, value)
  }

  // --------------------------------------------------- fields of a format

  function Offset(f: Format, i: nat): nat
    requires i <= |f|
  {
    if i == 0 then 0 else f[0].Width() + Offset(f[1..], i - 1)
  }

  lemma {:induction false} OffsetStep(f: Format, i: nat)
    requires i < |f|
    ensures Offset(f, i + 1) == Offset(f, i) + f[i].Width()
  {
    if i > 0 {
      OffsetStep(f[1..], i - 1);
    } else {
      assert Offset(f[1..], 0) == 0;
    }
  }

  lemma SliceOfTail(head: Bytes, tail: Bytes, at: nat, w: nat)
    requires at + w <= |tail|
    ensures (head + tail)[|head| + at..|head| + at + w] == tail[at..at + w]
  {
  }

  lemma SliceOfHead(head: Bytes, tail: Bytes)
    ensures (head + tail)[0..|head|] == head
  {
  }

  lemma {:induction false} PackAt(f: Format, vs: seq<int>, i: nat)
    requires AllFit(f, vs) && i < |f|
    ensures FieldAt(Pack(f, vs), Offset(f, i), f[i].Width(), f[i], vs[i])
  {
    hide PackOne, Fits, Size, Code.Width;
    var head, tail := PackOne(f[0], vs[0]), Pack(f[1..], vs[1..]);
    assert Pack(f, vs) == head + tail;
    if i == 0 {
      SliceOfHead(head, tail);
    } else {
      PackAt(f[1..], vs[1..], i - 1);
      SliceOfTail(head, tail, Offset(f[1..], i - 1), f[i].Width());
    }
  }

  /** The same inside a larger block. */
  lemma {:induction false} PackedIn(data: Bytes, base: nat, f: Format, vs: seq<int>, i: nat)
    requires AllFit(f, vs) && i < |f| && base + Size(f) <= |data| && data[base..base + Size(f)] == Pack(f, vs)
    ensures FieldAt(data, base + Offset(f, i), f[i].Width(), f[i], vs[i])
  {
    hide Pack, PackOne, Size, Fits;
    PackAt(f, vs, i);
    SliceOfSlice(data, base, base + Size(f), Offset(f, i), Offset(f, i) + f[i].Width());
  }

  // -------------------------------------------------------------- tensor

  lemma {:induction false} TensorHeadOffsets()
    ensures |TENSOR_HEAD| == 10
    ensures Offset(TENSOR_HEAD, 0) == 0 && Offset(TENSOR_HEAD, 1) == 8 && Offset(TENSOR_HEAD, 2) == 12
    ensures Offset(TENSOR_HEAD, 3) == 14 && Offset(TENSOR_HEAD, 4) == 16 && Offset(TENSOR_HEAD, 5) == 17
    ensures Offset(TENSOR_HEAD, 6) == 18 && Offset(TENSOR_HEAD, 7) == 20 && Offset(TENSOR_HEAD, 8) == 24
    ensures Offset(TENSOR_HEAD, 9) == 28
  {
    var f := TENSOR_HEAD;
    OffsetStep(f, 0);
    OffsetStep(f, 1);
    OffsetStep(f, 2);
    OffsetStep(f, 3);
    OffsetStep(f, 4);
    OffsetStep(f, 5);
    OffsetStep(f, 6);
    OffsetStep(f, 7);
    OffsetStep(f, 8);
  }

  lemma {:induction false} TensorTailOffsets()
    ensures |TENSOR_TAIL| == 11
    ensures Offset(TENSOR_TAIL, 0) == 0 && Offset(TENSOR_TAIL, 1) == 8 && Offset(TENSOR_TAIL, 2) == 16
    ensures Offset(TENSOR_TAIL, 3) == 24 && Offset(TENSOR_TAIL, 4) == 32 && Offset(TENSOR_TAIL, 5) == 40
    ensures Offset(TENSOR_TAIL, 6) == 48 && Offset(TENSOR_TAIL, 7) == 56 && Offset(TENSOR_TAIL, 8) == 64
    ensures Offset(TENSOR_TAIL, 9) == 72 && Offset(TENSOR_TAIL, 10) == 76
  {
    var f := TENSOR_TAIL;
    OffsetStep(f, 0);
    OffsetStep(f, 1);
    OffsetStep(f, 2);
    OffsetStep(f, 3);
    OffsetStep(f, 4);
    OffsetStep(f, 5);
    OffsetStep(f, 6);
    OffsetStep(f, 7);
    OffsetStep(f, 8);
    OffsetStep(f, 9);
  }

  lemma {:induction false} TensorParts(r: TensorRecord, data: Bytes)
    requires TensorBytes(r) == Ok(data)
    ensures |data| == 128 && |r.dimensions| <= 4
    ensures AllFit(TENSOR_HEAD, TensorHead(r)) && Size(TENSOR_HEAD) == 32 && data[0..0 + 32] == Pack(TENSOR_HEAD, TensorHead(r))
    ensures AllFit(TENSOR_TAIL, TensorTail(r)) && Size(TENSOR_TAIL) == 80 && data[32..32 + 80] == Pack(TENSOR_TAIL, TensorTail(r))
    ensures forall j :: 112 <= j < 128 ==> data[j] == 0
  {
    hide Pack, Size;
    TensorHeadSize();
    TensorTailSize();
    assert data[112..] == Zeros(16);
    assert forall j :: 112 <= j < 128 ==> data[j] == data[112..][j - 112];
  }

  /** The first 32 bytes of an encoded tensor record. */
  lemma {:induction false} TensorHeadLayout(r: TensorRecord, data: Bytes)
    requires TensorBytes(r) == Ok(data)
    ensures FieldAt(data, 0, 8, U64, r.tensorId) && FieldAt(data, 8, 4, U32, r.role)
    ensures FieldAt(data, 12, 2, U16, if r.dtype.Fp32? then 1 else if r.dtype.Uint8? then 2 else 3)
    ensures FieldAt(data, 14, 2, U16, if r.quantization.Mxfp4? then 1 else 0)
    ensures FieldAt(data, 16, 1, U8, |r.dimensions|) && FieldAt(data, 17, 1, U8, r.flags)
    ensures FieldAt(data, 18, 2, U16, 0)
    ensures FieldAt(data, 20, 4, I32, r.layerId) && FieldAt(data, 24, 4, I32, r.expertId)
    ensures FieldAt(data, 28, 4, U32, 0)
  {
    hide TensorBytes, AllFit, Pack, Size, FieldAt, Offset;
    TensorParts(r, data);
    TensorHeadOffsets();
    var f, vs := TENSOR_HEAD, TensorHead(r);
    PackedIn(data, 0, f, vs, 0);
    PackedIn(data, 0, f, vs, 1);
    PackedIn(data, 0, f, vs, 2);
    PackedIn(data, 0, f, vs, 3);
    PackedIn(data, 0, f, vs, 4);
    PackedIn(data, 0, f, vs, 5);
    PackedIn(data, 0, f, vs, 6);
    PackedIn(data, 0, f, vs, 7);
    PackedIn(data, 0, f, vs, 8);
    PackedIn(data, 0, f, vs, 9);
  }

  /** The remaining bytes: four dimensions, absent ones zero, then the extents. */
  lemma {:induction false} TensorTailLayout(r: TensorRecord, data: Bytes)
    requires TensorBytes(r) == Ok(data)
    ensures |data| == 128 && |r.dimensions| <= 4
    ensures FieldAt(data, 32, 8, U64, if |r.dimensions| > 0 then r.dimensions[0] else 0)
    ensures FieldAt(data, 40, 8, U64, if |r.dimensions| > 1 then r.dimensions[1] else 0)
    ensures FieldAt(data, 48, 8, U64, if |r.dimensions| > 2 then r.dimensions[2] else 0)
    ensures FieldAt(data, 56, 8, U64, if |r.dimensions| > 3 then r.dimensions[3] else 0)
    ensures FieldAt(data, 64, 8, U64, r.dataOffset) && FieldAt(data, 72, 8, U64, r.dataLength)
    ensures FieldAt(data, 80, 8, U64, r.logicalLength)
    ensures FieldAt(data, 88, 8, U64, r.auxiliaryOffset) && FieldAt(data, 96, 8, U64, r.auxiliaryLength)
    ensures FieldAt(data, 104, 4, U32, r.dataCrc32c) && FieldAt(data, 108, 4, U32, r.auxiliaryCrc32c)
    ensures forall j :: 112 <= j < 128 ==> data[j] == 0
  {
    hide TensorBytes, AllFit, Pack, Size, FieldAt, Offset;
    TensorParts(r, data);
    TensorTailOffsets();
    var f, vs := TENSOR_TAIL, TensorTail(r);
    PackedIn(data, 32, f, vs, 0);
    PackedIn(data, 32, f, vs, 1);
    PackedIn(data, 32, f, vs, 2);
    PackedIn(data, 32, f, vs, 3);
    PackedIn(data, 32, f, vs, 4);
    PackedIn(data, 32, f, vs, 5);
    PackedIn(data, 32, f, vs, 6);
    PackedIn(data, 32, f, vs, 7);
    PackedIn(data, 32, f, vs, 8);
    PackedIn(data, 32, f, vs, 9);
    PackedIn(data, 32, f, vs, 10);
  }

  /** The ranges of the fields. */
  predicate InU32(v: int) {
    0 <= v < 0x1_0000_0000
  }

  predicate InU64(v: int) {
    0 <= v < 0x1_0000_0000_0000_0000
  }

  predicate InI32(v: int) {
    -0x8000_0000 <= v < 0x8000_0000
  }

  lemma {:induction false} TensorFits(r: TensorRecord)
    ensures CanonicalTensor(r) <==>
              && r.role == 0 && r.flags == 0 && |r.dimensions| <= 4
              && (forall i :: 0 <= i < |r.dimensions| ==> InU64(r.dimensions[i]))
              && InU64(r.tensorId) && InI32(r.layerId) && InI32(r.expertId)
              && InU64(r.dataOffset) && InU64(r.dataLength) && InU64(r.logicalLength)
              && InU64(r.auxiliaryOffset) && InU64(r.auxiliaryLength)
              && InU32(r.dataCrc32c) && InU32(r.auxiliaryCrc32c)
  {
    HeadFits(TensorHead(r));
    if |r.dimensions| <= 4 {
      TailFits(TensorTail(r));
    }
  }

  lemma HeadFits(h: seq<int>)
    requires |h| == 10
    ensures AllFit(TENSOR_HEAD, h) <==>
              && Fits(U64, h[0]) && Fits(U32, h[1]) && Fits(U16, h[2]) && Fits(U16, h[3]) && Fits(U8, h[4])
              && Fits(U8, h[5]) && Fits(U16, h[6]) && Fits(I32, h[7]) && Fits(I32, h[8]) && Fits(U32, h[9])
  {
  }

  lemma TailFits(t: seq<int>)
    requires |t| == 11
    ensures AllFit(TENSOR_TAIL, t) <==>
              && Fits(U64, t[0]) && Fits(U64, t[1]) && Fits(U64, t[2]) && Fits(U64, t[3])
              && Fits(U64, t[4]) && Fits(U64, t[5]) && Fits(U64, t[6]) && Fits(U64, t[7]) && Fits(U64, t[8])
              && Fits(U32, t[9]) && Fits(U32, t[10])
  {
  }

  /** A tensor record can be read from some bytes exactly when its fields are in range,
      it has no role and no flags, and at most four dimensions. */
  lemma {:induction false} ReadableTensor(r: TensorRecord)
    ensures (exists data :: DecodeTensor(data) == Ok(r)) <==>
              && r.role == 0 && r.flags == 0 && |r.dimensions| <= 4
              && (forall i :: 0 <= i < |r.dimensions| ==> InU64(r.dimensions[i]))
              && InU64(r.tensorId) && InI32(r.layerId) && InI32(r.expertId)
              && InU64(r.dataOffset) && InU64(r.dataLength) && InU64(r.logicalLength)
              && InU64(r.auxiliaryOffset) && InU64(r.auxiliaryLength)
              && InU32(r.dataCrc32c) && InU32(r.auxiliaryCrc32c)
  {
    TensorFits(r);
    hide DecodeTensor, InU32, InU64, InI32;
    forall data ensures DecodeTensor(data) == Ok(r) <==> CanonicalTensor(r) && TensorBytes(r) == Ok(data) {
      TensorCodec(data, r);
    }
    if CanonicalTensor(r) {
      assert DecodeTensor(TensorBytes(r).value) == Ok(r);
    }
  }

  // --------------------------------------------------------------- layer

  lemma {:induction false} LayerOffsets()
    ensures |LAYER| == 9
    ensures Offset(LAYER, 0) == 0 && Offset(LAYER, 1) == 4 && Offset(LAYER, 2) == 6
    ensures Offset(LAYER, 3) == 8 && Offset(LAYER, 4) == 12 && Offset(LAYER, 5) == 16
    ensures Offset(LAYER, 6) == 20 && Offset(LAYER, 7) == 24 && Offset(LAYER, 8) == 28
  {
    var f := LAYER;
    OffsetStep(f, 0);
    OffsetStep(f, 1);
    OffsetStep(f, 2);
    OffsetStep(f, 3);
    OffsetStep(f, 4);
    OffsetStep(f, 5);
    OffsetStep(f, 6);
    OffsetStep(f, 7);
  }

  /** The bytes of an encoded layer record. */
  lemma {:induction false} LayerLayout(r: LayerRecord, data: Bytes)
    requires LayerBytes(r) == Ok(data)
    ensures |data| == 64
    ensures FieldAt(data, 0, 4, U32, r.layerIndex) && FieldAt(data, 4, 2, U16, r.attentionKind)
    ensures FieldAt(data, 6, 2, U16, r.ffnKind) && FieldAt(data, 8, 4, U32, r.firstTensor)
    ensures FieldAt(data, 12, 4, U32, r.tensorCount) && FieldAt(data, 16, 4, U32, r.firstExpert)
    ensures FieldAt(data, 20, 4, U32, r.expertCount) && FieldAt(data, 24, 4, I32, r.residualWriteIndex)
    ensures FieldAt(data, 28, 4, U32, r.flags)
    ensures forall j :: 32 <= j < 64 ==> data[j] == 0
  {
    hide AllFit, Pack, Size, FieldAt, Offset;
    LayerSize();
    LayerOffsets();
    var f, vs := LAYER, LayerFields(r);
    assert data[0..0 + 32] == Pack(f, vs) && data[32..] == Zeros(32);
    assert forall j :: 32 <= j < 64 ==> data[j] == data[32..][j - 32];
    PackedIn(data, 0, f, vs, 0);
    PackedIn(data, 0, f, vs, 1);
    PackedIn(data, 0, f, vs, 2);
    PackedIn(data, 0, f, vs, 3);
    PackedIn(data, 0, f, vs, 4);
    PackedIn(data, 0, f, vs, 5);
    PackedIn(data, 0, f, vs, 6);
    PackedIn(data, 0, f, vs, 7);
    PackedIn(data, 0, f, vs, 8);
  }

  /** A layer record can be read exactly when its kinds are 1 or 2, it has no flags, and
      its fields are in range. */
  lemma {:induction false} ReadableLayer(r: LayerRecord)
    ensures (exists data :: DecodeLayer(data) == Ok(r)) <==>
              && r.attentionKind in {1, 2} && r.ffnKind in {1, 2} && r.flags == 0
              && InU32(r.layerIndex) && InU32(r.firstTensor) && InU32(r.tensorCount)
              && InU32(r.firstExpert) && InU32(r.expertCount) && InI32(r.residualWriteIndex)
  {
    var v := LayerFields(r);
    assert AllFit(LAYER, v) <==>
             && Fits(U32, v[0]) && Fits(U16, v[1]) && Fits(U16, v[2]) && Fits(U32, v[3]) && Fits(U32, v[4])
             && Fits(U32, v[5]) && Fits(U32, v[6]) && Fits(I32, v[7]) && Fits(U32, v[8]);
    hide DecodeLayer;
    forall data ensures DecodeLayer(data) == Ok(r) <==> CanonicalLayer(r) && LayerBytes(r) == Ok(data) {
      LayerCodec(data, r);
    }
    if CanonicalLayer(r) {
      assert DecodeLayer(LayerBytes(r).value) == Ok(r);
    }
  }

  // -------------------------------------------------------------- expert

  lemma {:induction false} ExpertOffsets()
    ensures |EXPERT| == 8
    ensures Offset(EXPERT, 0) == 0 && Offset(EXPERT, 1) == 4 && Offset(EXPERT, 2) == 8
    ensures Offset(EXPERT, 3) == 12 && Offset(EXPERT, 4) == 16 && Offset(EXPERT, 5) == 24
    ensures Offset(EXPERT, 6) == 32 && Offset(EXPERT, 7) == 40
  {
    var f := EXPERT;
    OffsetStep(f, 0);
    OffsetStep(f, 1);
    OffsetStep(f, 2);
    OffsetStep(f, 3);
    OffsetStep(f, 4);
    OffsetStep(f, 5);
    OffsetStep(f, 6);
  }

  /** The bytes of an encoded expert record. */
  lemma {:induction false} ExpertLayout(r: ExpertRecord, data: Bytes)
    requires ExpertBytes(r) == Ok(data)
    ensures |data| == 64
    ensures FieldAt(data, 0, 4, U32, r.layerIndex) && FieldAt(data, 4, 4, U32, r.expertId)
    ensures FieldAt(data, 8, 4, U32, r.physicalOrder) && FieldAt(data, 12, 4, U32, r.flags)
    ensures FieldAt(data, 16, 8, U64, r.gateTensorId) && FieldAt(data, 24, 8, U64, r.upTensorId)
    ensures FieldAt(data, 32, 8, U64, r.downTensorId) && FieldAt(data, 40, 8, U64, r.profileFrequencyQ32)
    ensures forall j :: 48 <= j < 64 ==> data[j] == 0
  {
    hide AllFit, Pack, Size, FieldAt, Offset;
    ExpertSize();
    ExpertOffsets();
    var f, vs := EXPERT, ExpertFields(r);
    assert data[0..0 + 48] == Pack(f, vs) && data[48..] == Zeros(16);
    assert forall j :: 48 <= j < 64 ==> data[j] == data[48..][j - 48];
    PackedIn(data, 0, f, vs, 0);
    PackedIn(data, 0, f, vs, 1);
    PackedIn(data, 0, f, vs, 2);
    PackedIn(data, 0, f, vs, 3);
    PackedIn(data, 0, f, vs, 4);
    PackedIn(data, 0, f, vs, 5);
    PackedIn(data, 0, f, vs, 6);
    PackedIn(data, 0, f, vs, 7);
  }

  /** An expert record can be read exactly when it has no flags and its fields are in range. */
  lemma {:induction false} ReadableExpert(r: ExpertRecord)
    ensures (exists data :: DecodeExpert(data) == Ok(r)) <==>
              && r.flags == 0 && InU32(r.layerIndex) && InU32(r.expertId) && InU32(r.physicalOrder)
              && InU64(r.gateTensorId) && InU64(r.upTensorId) && InU64(r.downTensorId) && InU64(r.profileFrequencyQ32)
  {
    var v := ExpertFields(r);
    assert AllFit(EXPERT, v) <==>
             && Fits(U32, v[0]) && Fits(U32, v[1]) && Fits(U32, v[2]) && Fits(U32, v[3])
             && Fits(U64, v[4]) && Fits(U64, v[5]) && Fits(U64, v[6]) && Fits(U64, v[7]);
    hide DecodeExpert;
    forall data ensures DecodeExpert(data) == Ok(r) <==> CanonicalExpert(r) && ExpertBytes(r) == Ok(data) {
      ExpertCodec(data, r);
    }
    if CanonicalExpert(r) {
      assert DecodeExpert(ExpertBytes(r).value) == Ok(r);
    }
  }

  // ----------------------------------------------------------- directory

  lemma {:induction false} ItemAt(items: seq<Bytes>, size: nat, i: nat)
    requires Uniform(items, size) && i < |items|
    ensures i * size + size <= |Concat(items)| && Concat(items)[i * size..i * size + size] == items[i]
  {
    SplitConcat(items, size);
    TimesIsProduct(|items|, size);
    if i == 0 {
      SliceOfHead(items[0], Concat(items[1..]));
    } else {
      ItemAt(items[1..], size, i - 1);
      assert i * size == size + (i - 1) * size;
      SliceOfTail(items[0], Concat(items[1..]), (i - 1) * size, size);
    }
  }

  /** `item` stands at byte `at`. */
  predicate Stands(data: Bytes, at: int, item: Bytes) {
    0 <= at && at + |item| <= |data| && data[at..at + |item|] == item
  }

  /** The bytes of a directory: its tag, record size and count, then the items in order. */
  lemma {:induction false} DirectoryLayout(tag: Bytes, size: nat, items: seq<Bytes>, data: Bytes, i: nat)
    requires EncodeDirectory(tag, size, items) == Ok(data)
    ensures |data| == 16 + |items| * size && data[0..4] == tag
    ensures FieldAt(data, 4, 4, U32, size) && FieldAt(data, 8, 8, U64, |items|)
    ensures i < |items| ==> Stands(data, 16 + i * size, items[i])
  {
    hide Pack, Size, FieldAt, Offset;
    DirectorySize();
    OffsetStep(DIRECTORY, 0);
    assert Offset(DIRECTORY, 0) == 0 && Offset(DIRECTORY, 1) == 4 by { OffsetZero(DIRECTORY); }
    var vs := [size, |items|];
    SplitConcat(items, size);
    TimesIsProduct(|items|, size);
    assert data[4..4 + 12] == Pack(DIRECTORY, vs) && data[16..] == Concat(items);
    PackedIn(data, 4, DIRECTORY, vs, 0);
    PackedIn(data, 4, DIRECTORY, vs, 1);
    if i < |items| {
      ItemAt(items, size, i);
      SliceOfTail(data[..16], data[16..], i * size, size);
      assert data == data[..16] + data[16..];
    }
  }

  lemma OffsetZero(f: Format)
    ensures Offset(f, 0) == 0
  {
  }

  // ---------------------------------------------------------- superblock

  lemma {:induction false} SuperblockHeadOffsets()
    ensures |SB_HEAD| == 7
    ensures Offset(SB_HEAD, 0) == 0 && Offset(SB_HEAD, 1) == 2 && Offset(SB_HEAD, 2) == 4
    ensures Offset(SB_HEAD, 3) == 8 && Offset(SB_HEAD, 4) == 12 && Offset(SB_HEAD, 5) == 16
    ensures Offset(SB_HEAD, 6) == 24
  {
    var f := SB_HEAD;
    OffsetStep(f, 0);
    OffsetStep(f, 1);
    OffsetStep(f, 2);
    OffsetStep(f, 3);
    OffsetStep(f, 4);
    OffsetStep(f, 5);
  }

  lemma {:induction false} SuperblockBodyOffsets()
    ensures |SB_BODY| == 10
    ensures Offset(SB_BODY, 0) == 0 && Offset(SB_BODY, 1) == 8 && Offset(SB_BODY, 2) == 16
    ensures Offset(SB_BODY, 3) == 24 && Offset(SB_BODY, 4) == 32 && Offset(SB_BODY, 5) == 40
    ensures Offset(SB_BODY, 6) == 48 && Offset(SB_BODY, 7) == 56 && Offset(SB_BODY, 8) == 64
    ensures Offset(SB_BODY, 9) == 72
  {
    var f := SB_BODY;
    OffsetStep(f, 0);
    OffsetStep(f, 1);
    OffsetStep(f, 2);
    OffsetStep(f, 3);
    OffsetStep(f, 4);
    OffsetStep(f, 5);
    OffsetStep(f, 6);
    OffsetStep(f, 7);
    OffsetStep(f, 8);
  }

  /** The identity of an encoded superblock: magic, version, sizes, state and features. */
  lemma {:induction false} SuperblockHead(s: Superblock, crc: Crc, data: Bytes)
    requires SuperblockBytes(s, crc) == Ok(data)
    ensures |data| == 4096 && data[0..8] == [0x4B, 0x33, 0x58, 0x43, 0x48, 0x4B, 0x50, 0x54]
    ensures FieldAt(data, 8, 2, U16, 1) && FieldAt(data, 10, 2, U16, 0)
    ensures FieldAt(data, 12, 4, U32, 4096) && FieldAt(data, 16, 4, U32, 4096)
    ensures FieldAt(data, 20, 4, U32, s.state) && FieldAt(data, 24, 8, U64, s.requiredFeatures)
    ensures FieldAt(data, 32, 8, U64, s.optionalFeatures)
    ensures data[40..56] == s.fileUuid && data[56..88] == s.sourceSha256
  {
    hide Pack, Size, FieldAt, Offset, AllFit, ChecksummedBytes;
    SuperblockSizes();
    SuperblockLayout(s, crc);
    SuperblockHeadOffsets();
    var f, vs := SB_HEAD, HeadFields(s);
    assert data[8..8 + 32] == Pack(f, vs);
    PackedIn(data, 8, f, vs, 0);
    PackedIn(data, 8, f, vs, 1);
    PackedIn(data, 8, f, vs, 2);
    PackedIn(data, 8, f, vs, 3);
    PackedIn(data, 8, f, vs, 4);
    PackedIn(data, 8, f, vs, 5);
    PackedIn(data, 8, f, vs, 6);
  }

  /** Its places, digests, padding and checksum. */
  lemma {:induction false} SuperblockBody(s: Superblock, crc: Crc, data: Bytes)
    requires SuperblockBytes(s, crc) == Ok(data)
    ensures |data| == 4096
    ensures FieldAt(data, 88, 8, U64, s.tensorDirectoryOffset) && FieldAt(data, 96, 8, U64, s.tensorDirectoryLength)
    ensures FieldAt(data, 104, 8, U64, s.layerDirectoryOffset) && FieldAt(data, 112, 8, U64, s.layerDirectoryLength)
    ensures FieldAt(data, 120, 8, U64, s.expertDirectoryOffset) && FieldAt(data, 128, 8, U64, s.expertDirectoryLength)
    ensures FieldAt(data, 136, 8, U64, s.modelConfigOffset) && FieldAt(data, 144, 8, U64, s.modelConfigLength)
    ensures FieldAt(data, 152, 8, U64, s.payloadOffset) && FieldAt(data, 160, 8, U64, s.fileLength)
    ensures data[168..200] == s.directorySha256 && data[200..232] == s.rootSha256
    ensures forall j :: 232 <= j < 4092 ==> data[j] == 0
    ensures FieldAt(data, 4092, 4, U32, crc(data[..4092]))
  {
    hide Pack, Size, FieldAt, Offset, AllFit, ChecksummedBytes;
    SuperblockSizes();
    SuperblockLayout(s, crc);
    SuperblockBodyOffsets();
    assert forall j :: 232 <= j < 4092 ==> data[j] == data[232..4092][j - 232];
    var f, vs := SB_BODY, BodyFields(s);
    assert data[88..88 + 80] == Pack(f, vs);
    PackedIn(data, 88, f, vs, 0);
    PackedIn(data, 88, f, vs, 1);
    PackedIn(data, 88, f, vs, 2);
    PackedIn(data, 88, f, vs, 3);
    PackedIn(data, 88, f, vs, 4);
    PackedIn(data, 88, f, vs, 5);
    PackedIn(data, 88, f, vs, 6);
    PackedIn(data, 88, f, vs, 7);
    PackedIn(data, 88, f, vs, 8);
    PackedIn(data, 88, f, vs, 9);
    OffsetZero(SB_CRC);
    assert data[4092..4092 + 4] == Pack(SB_CRC, [crc(data[..4092])]);
    PackedIn(data, 4092, SB_CRC, [crc(data[..4092])], 0);
  }

  /** A superblock can be read exactly when its digests have their sizes, its fields are
      in range, no unknown feature is required, and the checksum is a 32-bit number. */
  lemma {:induction false} ReadableSuperblock(s: Superblock, crc: Crc)
    requires forall b: Bytes :: InU32(crc(b))
    ensures (exists data :: DecodeSuperblock(data, crc) == Ok(s)) <==>
              && |s.sourceSha256| == 32 && |s.fileUuid| == 16 && |s.directorySha256| == 32 && |s.rootSha256| == 32
              && s.requiredFeatures in {0, 1} && InU32(s.state) && InU64(s.optionalFeatures)
              && InU64(s.tensorDirectoryOffset) && InU64(s.tensorDirectoryLength)
              && InU64(s.layerDirectoryOffset) && InU64(s.layerDirectoryLength)
              && InU64(s.expertDirectoryOffset) && InU64(s.expertDirectoryLength)
              && InU64(s.modelConfigOffset) && InU64(s.modelConfigLength)
              && InU64(s.payloadOffset) && InU64(s.fileLength)
  {
    SuperblockFits(s, crc);
    hide DecodeSuperblock, InU64;
    forall data ensures DecodeSuperblock(data, crc) == Ok(s) <==> CanonicalSuperblock(s) && SuperblockBytes(s, crc) == Ok(data) {
      SuperblockCodec(data, s, crc);
    }
    if CanonicalSuperblock(s) {
      assert DecodeSuperblock(SuperblockBytes(s, crc).value, crc) == Ok(s);
    }
  }

  lemma {:induction false} SuperblockFits(s: Superblock, crc: Crc)
    requires forall b: Bytes :: InU32(crc(b))
    ensures CanonicalSuperblock(s) ==> SuperblockBytes(s, crc).Ok?
    ensures CanonicalSuperblock(s) <==>
              && |s.sourceSha256| == 32 && |s.fileUuid| == 16 && |s.directorySha256| == 32 && |s.rootSha256| == 32
              && s.requiredFeatures in {0, 1} && InU32(s.state) && InU64(s.optionalFeatures)
              && InU64(s.tensorDirectoryOffset) && InU64(s.tensorDirectoryLength)
              && InU64(s.layerDirectoryOffset) && InU64(s.layerDirectoryLength)
              && InU64(s.expertDirectoryOffset) && InU64(s.expertDirectoryLength)
              && InU64(s.modelConfigOffset) && InU64(s.modelConfigLength)
              && InU64(s.payloadOffset) && InU64(s.fileLength)
  {
    hide Pack, Size, ChecksummedBytes;
    var h, v := HeadFields(s), BodyFields(s);
    assert AllFit(SB_HEAD, h) <==>
             && Fits(U16, h[0]) && Fits(U16, h[1]) && Fits(U32, h[2]) && Fits(U32, h[3]) && Fits(U32, h[4])
             && Fits(U64, h[5]) && Fits(U64, h[6]);
    assert AllFit(SB_BODY, v) <==>
             && Fits(U64, v[0]) && Fits(U64, v[1]) && Fits(U64, v[2]) && Fits(U64, v[3]) && Fits(U64, v[4])
             && Fits(U64, v[5]) && Fits(U64, v[6]) && Fits(U64, v[7]) && Fits(U64, v[8]) && Fits(U64, v[9]);
  }
}
