// Acceptance of a whole file, spelled out: every byte range, checksum and digest the
// reader looks at, by its literal place (converter/k3x_converter/reader.py).

module ReaderFields {
  import opened Arithmetic
  import opened Format
  import opened Layout
  import opened Offsets
  import opened Reader
  import opened RootDigest
  import opened Struct
  import opened Wrappers

  /** The bytes at a recorded place; nothing when the place is outside the file. */
  function Slice(file: Bytes, offset: int, length: int): Bytes {
    if 0 <= offset && 0 <= length && offset + length <= |file| then file[offset..offset + length] else []
  }

  predicate Inside(file: Bytes, offset: int, length: int) {
    0 <= offset && 0 <= length && offset + length <= |file|
  }

  lemma AtIsSlice(file: Bytes, offset: int, length: int, b: Bytes)
    ensures At(file, offset, length, b) <==> Inside(file, offset, length) && b == Slice(file, offset, length)
  {
  }

  /** The regions of a file, by the superblock's fields. */
  lemma {:induction false} RegionsByFields(file: Bytes, s: Superblock, g: Regions)
    ensures RegionsAt(file, s, g) <==>
            && Inside(file, s.tensorDirectoryOffset, s.tensorDirectoryLength)
            && g.tensors == Slice(file, s.tensorDirectoryOffset, s.tensorDirectoryLength)
            && Inside(file, s.layerDirectoryOffset, s.layerDirectoryLength)
            && g.layers == Slice(file, s.layerDirectoryOffset, s.layerDirectoryLength)
            && Inside(file, s.expertDirectoryOffset, s.expertDirectoryLength)
            && g.experts == Slice(file, s.expertDirectoryOffset, s.expertDirectoryLength)
            && s.modelConfigLength == 256 && Inside(file, s.modelConfigOffset, 256)
            && g.config == Slice(file, s.modelConfigOffset, 256)
  {
    hide At, Inside, Slice;
    AtIsSlice(file, s.tensorDirectoryOffset, s.tensorDirectoryLength, g.tensors);
    AtIsSlice(file, s.layerDirectoryOffset, s.layerDirectoryLength, g.layers);
    AtIsSlice(file, s.expertDirectoryOffset, s.expertDirectoryLength, g.experts);
    AtIsSlice(file, s.modelConfigOffset, s.modelConfigLength, g.config);
  }

  /** The checks on the stored bytes of one tensor. */
  lemma {:induction false} IntactByFields(file: Bytes, r: TensorRecord, crc: Crc)
    ensures Intact(file, r, crc) <==>
            && Inside(file, r.dataOffset, r.dataLength)
            && crc(Slice(file, r.dataOffset, r.dataLength)) == r.dataCrc32c
            && (r.auxiliaryLength != 0 ==>
                  && Inside(file, r.auxiliaryOffset, r.auxiliaryLength)
                  && crc(Slice(file, r.auxiliaryOffset, r.auxiliaryLength)) == r.auxiliaryCrc32c)
  {
  }

  /** What acceptance says of the bytes: the superblock announces a finished file of this
      length, the directory digest is over the four regions in order, the stored root is that
      of the file without it, and both digests stand in the superblock. */
  lemma {:induction false} AcceptedDigests(file: Bytes, k: K3XFile, g: Regions, crc: Crc, sha: Sha, verifyRoot: bool)
    requires Sound(file, k, g, crc, sha, verifyRoot)
    ensures |file| >= 4096 && file[..8] == [0x4B, 0x33, 0x58, 0x43, 0x48, 0x4B, 0x50, 0x54]
    ensures FieldAt(file[..4096], 20, 4, U32, 1) && FieldAt(file[..4096], 160, 8, U64, |file|)
    ensures FieldAt(file[..4096], 4092, 4, U32, crc(file[..4092]))
    ensures var s := k.superblock;
            && s.modelConfigLength == 256 && k.modelConfig == Slice(file, s.modelConfigOffset, 256)
            && file[168..200] == sha(Slice(file, s.tensorDirectoryOffset, s.tensorDirectoryLength)
                                     + Slice(file, s.layerDirectoryOffset, s.layerDirectoryLength)
                                     + Slice(file, s.expertDirectoryOffset, s.expertDirectoryLength)
                                     + Slice(file, s.modelConfigOffset, 256))
            && (verifyRoot ==> file[200..232] == sha(Masked(file)))
  {
    hide FieldAt, Masked, RegionsAt, Slice, Inside, GoodLayout, AllBf16Plain, HasBf16, Intact, CanonicalSuperblock;
    hide SuperblockBytes, IsTensorDirectory, IsLayerDirectory, IsExpertDirectory;
    var block := file[..4096];
    SuperblockHead(k.superblock, crc, block);
    SuperblockBody(k.superblock, crc, block);
    RegionsByFields(file, k.superblock, g);
    assert block[..4092] == file[..4092] && block[168..200] == file[168..200] && block[200..232] == file[200..232];
    assert block[0..8] == file[..8];
  }

  /** Acceptance of the content checks, both ways. */
  lemma {:induction false} SoundByFields(file: Bytes, k: K3XFile, g: Regions, crc: Crc, sha: Sha, verifyRoot: bool)
    ensures Sound(file, k, g, crc, sha, verifyRoot) <==>
            && IsEncoding(file, k, g, crc) && GoodLayout(k.tensors, |file|, 4096)
            && (forall i :: 0 <= i < |k.tensors| && k.tensors[i].dtype.Bf16? ==>
                  && k.superblock.requiredFeatures == 1 && k.tensors[i].quantization == Quantization.None
                  && k.tensors[i].dataLength == k.tensors[i].logicalLength == 2 * Product(k.tensors[i].dimensions)
                  && k.tensors[i].dataLength != 0
                  && k.tensors[i].auxiliaryOffset == k.tensors[i].auxiliaryLength == k.tensors[i].auxiliaryCrc32c == 0)
            && (k.superblock.requiredFeatures == 1 ==> exists i :: 0 <= i < |k.tensors| && k.tensors[i].dtype.Bf16?)
            && (forall i :: 0 <= i < |k.tensors| ==> Intact(file, k.tensors[i], crc))
            && sha(g.tensors + g.layers + g.experts + g.config) == k.superblock.directorySha256
            && (verifyRoot ==> sha(Masked(file)) == k.superblock.rootSha256)
  {
    hide IsEncoding, GoodLayout, Intact, Masked, Product;
  }

  // ------------------------------------------------- records in the file

  lemma {:induction false} EncodedTensor(records: seq<TensorRecord>, i: nat)
    requires EncodeTensors(records).Ok? && i < |records|
    ensures TensorBytes(records[i]) == Ok(EncodeTensors(records).value[i])
  {
    hide TensorBytes;
    if i < |records| - 1 {
      EncodedTensor(records[..|records| - 1], i);
    }
  }

  lemma {:induction false} EncodedLayer(records: seq<LayerRecord>, i: nat)
    requires EncodeLayers(records).Ok? && i < |records|
    ensures LayerBytes(records[i]) == Ok(EncodeLayers(records).value[i])
  {
    hide LayerBytes;
    if i < |records| - 1 {
      EncodedLayer(records[..|records| - 1], i);
    }
  }

  lemma {:induction false} EncodedExpert(records: seq<ExpertRecord>, i: nat)
    requires EncodeExperts(records).Ok? && i < |records|
    ensures ExpertBytes(records[i]) == Ok(EncodeExperts(records).value[i])
  {
    hide ExpertBytes;
    if i < |records| - 1 {
      EncodedExpert(records[..|records| - 1], i);
    }
  }

  /** Tensor record `i` stands behind its directory's header, 128 bytes a record. */
  lemma {:induction false} TensorRecordAt(b: Bytes, records: seq<TensorRecord>, i: nat)
    requires IsTensorDirectory(b, records)
    ensures |b| == 16 + |records| * 128 && b[0..4] == [0x54, 0x45, 0x4E, 0x53]
    ensures FieldAt(b, 4, 4, U32, 128) && FieldAt(b, 8, 8, U64, |records|)
    ensures i < |records| ==> TensorBytes(records[i]).Ok? && Stands(b, 16 + i * 128, TensorBytes(records[i]).value)
  {
    hide CanonicalTensors, FieldAt, EncodeTensors, TensorBytes, EncodeDirectory;
    var items := EncodeTensors(records).value;
    DirectoryLayout(TENS, 128, items, b, i);
    if i < |records| {
      EncodedTensor(records, i);
    }
  }

  lemma {:induction false} LayerRecordAt(b: Bytes, records: seq<LayerRecord>, i: nat)
    requires IsLayerDirectory(b, records)
    ensures |b| == 16 + |records| * 64 && b[0..4] == [0x4C, 0x41, 0x59, 0x52]
    ensures FieldAt(b, 4, 4, U32, 64) && FieldAt(b, 8, 8, U64, |records|)
    ensures i < |records| ==> LayerBytes(records[i]).Ok? && Stands(b, 16 + i * 64, LayerBytes(records[i]).value)
  {
    hide CanonicalLayers, FieldAt, EncodeLayers, LayerBytes, EncodeDirectory;
    var items := EncodeLayers(records).value;
    DirectoryLayout(LAYR, 64, items, b, i);
    if i < |records| {
      EncodedLayer(records, i);
    }
  }

  lemma {:induction false} ExpertRecordAt(b: Bytes, records: seq<ExpertRecord>, i: nat)
    requires IsExpertDirectory(b, records)
    ensures |b| == 16 + |records| * 64 && b[0..4] == [0x45, 0x58, 0x50, 0x54]
    ensures FieldAt(b, 4, 4, U32, 64) && FieldAt(b, 8, 8, U64, |records|)
    ensures i < |records| ==> ExpertBytes(records[i]).Ok? && Stands(b, 16 + i * 64, ExpertBytes(records[i]).value)
  {
    hide CanonicalExperts, FieldAt, EncodeExperts, ExpertBytes, EncodeDirectory;
    var items := EncodeExperts(records).value;
    DirectoryLayout(EXPT, 64, items, b, i);
    if i < |records| {
      EncodedExpert(records, i);
    }
  }

  /** Where an accepted file keeps record `i` of each kind: in the region its superblock
      names for that kind, behind sixteen bytes of header. */
  lemma {:induction false} AcceptedRecords(file: Bytes, k: K3XFile, g: Regions, crc: Crc, i: nat)
    requires IsEncoding(file, k, g, crc)
    ensures var s := k.superblock;
            && (i < |k.tensors| ==>
                  && TensorBytes(k.tensors[i]).Ok?
                  && Stands(file, s.tensorDirectoryOffset + 16 + i * 128, TensorBytes(k.tensors[i]).value))
            && (i < |k.layers| ==>
                  && LayerBytes(k.layers[i]).Ok?
                  && Stands(file, s.layerDirectoryOffset + 16 + i * 64, LayerBytes(k.layers[i]).value))
            && (i < |k.experts| ==>
                  && ExpertBytes(k.experts[i]).Ok?
                  && Stands(file, s.expertDirectoryOffset + 16 + i * 64, ExpertBytes(k.experts[i]).value))
  {
    hide CanonicalSuperblock, SuperblockBytes, TensorBytes, LayerBytes, ExpertBytes, FieldAt, Stands;
    hide IsTensorDirectory, IsLayerDirectory, IsExpertDirectory;
    var s := k.superblock;
    if i < |k.tensors| {
      TensorRecordAt(g.tensors, k.tensors, i);
      StandsInside(file, s.tensorDirectoryOffset, g.tensors, 16 + i * 128, TensorBytes(k.tensors[i]).value);
    }
    if i < |k.layers| {
      LayerRecordAt(g.layers, k.layers, i);
      StandsInside(file, s.layerDirectoryOffset, g.layers, 16 + i * 64, LayerBytes(k.layers[i]).value);
    }
    if i < |k.experts| {
      ExpertRecordAt(g.experts, k.experts, i);
      StandsInside(file, s.expertDirectoryOffset, g.experts, 16 + i * 64, ExpertBytes(k.experts[i]).value);
    }
  }

  lemma {:induction false} StandsInside(file: Bytes, offset: int, region: Bytes, at: int, item: Bytes)
    requires 0 <= offset && offset + |region| <= |file| && file[offset..offset + |region|] == region
    requires Stands(region, at, item)
    ensures Stands(file, offset + at, item)
  {
    SliceOfSlice(file, offset, offset + |region|, at, at + |item|);
  }
}
