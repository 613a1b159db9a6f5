// The chunked root digest of a K3X file (converter/k3x_converter/format.py) and
// why it can be stored inside the bytes it covers.

module RootDigest {
  import opened Format
  import opened Streams
  import opened Struct
  import opened Wrappers

  /** The stored root digest and the superblock checksum, which hold zeros while
      the digest is computed. */
  predicate InWindow(i: int) {
    200 <= i < 232 || 4092 <= i < 4096
  }

  /** The file as the digest sees it. */
  function Masked(file: Bytes): (m: Bytes)
    ensures |m| == |file|
  {
    seq(|file|, i requires 0 <= i < |file| => if InWindow(i) then 0 else file[i])
  }

  /** `chunk`, read at `position`, with its part of [start, end) cleared. */
  function Cleared(chunk: Bytes, position: nat, start: nat, end: nat): (c: Bytes)
    ensures |c| == |chunk|
  {
    seq(|chunk|, i requires 0 <= i < |chunk| => if start <= position + i < end then 0 else chunk[i])
  }

  method ClearWindow(chunk: array<byte>, position: nat, start: nat, end: nat)
    requires start <= end
    modifies chunk
    ensures chunk[..] == Cleared(old(chunk[..]), position, start, end)
  {
    var left := Max(start - position, 0);
    var right := Min(end - position, chunk.Length);
    if left < right {
      Store(chunk, left, Zeros(right - left));
    }
  }

  /** One read of the loop.  A size of -1 asks for everything, and no stream opened on a
      file takes a smaller one. */
  method ReadChunk(stream: ByteStream, n: int) returns (r: Result<Bytes>)
    requires stream.position <= |stream.data|
    modifies stream
    ensures r.Err? <==> n < -1
    ensures r.Err? ==> r.error == InvalidReadSize
    ensures r.Ok? ==>
      && old(stream.position) <= stream.position <= |stream.data|
      && r.value == stream.data[old(stream.position)..stream.position]
      && (n >= 0 ==> |r.value| <= n)
      && (n == -1 ==> stream.position == |stream.data|)
      && (n != 0 && old(stream.position) < |stream.data| ==> r.value != [])
  {
    if n < -1 {
      return Err(InvalidReadSize);
    }
    var chunk;
    if n == -1 {
      chunk := stream.ReadAll();
    } else {
      chunk := stream.Read(n);
    }
    return Ok(chunk);
  }

  /** What the digest absorbs: the file, or with the size -1 the whole stream. */
  function Absorbed(data: Bytes, fileLength: nat, chunkBytes: int): Bytes
    requires fileLength <= |data|
  {
    if chunkBytes == -1 && fileLength > 0 then data else data[..fileLength]
  }

  lemma MaskedGrows(data: Bytes, position: nat, got: Bytes, cleared: Bytes)
    requires position + |got| <= |data| && got == data[position..position + |got|]
    requires cleared == Cleared(Cleared(got, position, 200, 232), position, 4092, 4096)
    ensures Masked(data[..position + |got|]) == Masked(data[..position]) + cleared
  {
  }

  /** Absorb the file chunk by chunk, both windows cleared in every chunk they
      touch.  The digest is of exactly the masked file, however reads are cut. */
  method RootSha256(stream: ByteStream, fileLength: nat, chunkBytes: int, sha: Bytes -> Bytes)
    returns (r: Result<Bytes>)
    modifies stream
    ensures r == if fileLength > 0 && chunkBytes < -1 then Err(InvalidReadSize)
                 else if fileLength <= |stream.data| && (chunkBytes != 0 || fileLength == 0)
                 then Ok(sha(Masked(Absorbed(stream.data, fileLength, chunkBytes))))
                 else Err(TruncatedFile)
  {
    var absorbed: Bytes := [];
    stream.Seek(0);
    var position := 0;
    while position < fileLength
      invariant position == stream.position <= |stream.data|
      invariant absorbed == Masked(stream.data[..position])
      invariant chunkBytes != -1 || fileLength == 0 ==> position <= fileLength
      invariant position > 0 ==> chunkBytes > 0 || (chunkBytes == -1 && position == |stream.data|)
    {
      var got :- ReadChunk(stream, Min(chunkBytes, fileLength - position));
      if |got| == 0 {
        return Err(TruncatedFile);
      }
      var chunk := new byte[|got|](i requires 0 <= i < |got| => got[i]);
      assert chunk[..] == got;
      ClearWindow(chunk, position, 200, 232);
      ClearWindow(chunk, position, 4092, 4096);
      MaskedGrows(stream.data, position, got, chunk[..]);
      absorbed := absorbed + chunk[..];
      position := position + |got|;
    }
    assert stream.data[..|stream.data|] == stream.data;
    return Ok(sha(absorbed));
  }

  /** Two files look the same to the digest exactly when they agree outside the windows. */
  lemma {:induction false} MaskedEqual(f: Bytes, g: Bytes)
    requires |f| == |g|
    ensures Masked(f) == Masked(g) <==>
            forall i :: 0 <= i < |f| && !(200 <= i < 232 || 4092 <= i < 4096) ==> f[i] == g[i]
    ensures forall i :: 0 <= i < |f| ==> Masked(f)[i] == if 200 <= i < 232 || 4092 <= i < 4096 then 0 else f[i]
  {
    if Masked(f) == Masked(g) {
      forall i | 0 <= i < |f| && !InWindow(i) ensures f[i] == g[i] {
        assert Masked(f)[i] == Masked(g)[i];
      }
    }
  }

  /** Writing any root digest into the superblock leaves the root digest of the
      file as it was: the field can be filled after it is computed. */
  lemma {:induction false} RootFieldIsFree(s: Superblock, root: Bytes, rest: Bytes, crc: Crc)
    requires SuperblockBytes(s, crc).Ok? && SuperblockBytes(s.(rootSha256 := root), crc).Ok?
    ensures Masked(SuperblockBytes(s, crc).value + rest) ==
            Masked(SuperblockBytes(s.(rootSha256 := root), crc).value + rest)
  {
    var t := s.(rootSha256 := root);
    var a, b := SuperblockBytes(s, crc).value, SuperblockBytes(t, crc).value;
    SuperblockLayout(s, crc);
    SuperblockLayout(t, crc);
    SameOutside(a, b);
    forall i | 0 <= i < |a + rest| && !InWindow(i) ensures (a + rest)[i] == (b + rest)[i] {
    }
    MaskedEqual(a + rest, b + rest);
  }

  /** Blocks with equal head, offsets, directory digest and padding differ only in the windows. */
  lemma {:induction false} SameOutside(a: Bytes, b: Bytes)
    requires |a| == |b| == 4096
    requires a[..8] == b[..8] && a[8..40] == b[8..40] && a[40..56] == b[40..56] && a[56..88] == b[56..88]
    requires a[88..168] == b[88..168] && a[168..200] == b[168..200] && a[232..4092] == b[232..4092]
    ensures forall i :: 0 <= i < 4096 && !InWindow(i) ==> a[i] == b[i]
  {
    forall i | 0 <= i < 4096 && !InWindow(i) ensures a[i] == b[i] {
      if i < 8 { assert a[..8][i] == b[..8][i]; }
      else if i < 40 { assert a[8..40][i - 8] == b[8..40][i - 8]; }
      else if i < 56 { assert a[40..56][i - 40] == b[40..56][i - 40]; }
      else if i < 88 { assert a[56..88][i - 56] == b[56..88][i - 56]; }
      else if i < 168 { assert a[88..168][i - 88] == b[88..168][i - 88]; }
      else if i < 200 { assert a[168..200][i - 168] == b[168..200][i - 168]; }
      else { assert a[232..4092][i - 232] == b[232..4092][i - 232]; }
    }
  }

  /** The rest of the file, the root field and the checksum together fix every byte. */
  lemma {:induction false} MaskPlusRootIsWhole(f: Bytes, g: Bytes, crc: Crc)
    requires |f| >= SUPERBLOCK_BYTES && Masked(f) == Masked(g)
    requires DecodeSuperblock(f[..4096], crc).Ok? && DecodeSuperblock(g[..4096], crc).Ok?
    requires DecodeSuperblock(f[..4096], crc).value.rootSha256 == DecodeSuperblock(g[..4096], crc).value.rootSha256
    ensures f == g
  {
    hide Pack, Unpack, Size;
    var a, b := f[..4096], g[..4096];
    assert |g| == |Masked(g)| == |f|;
    MaskedEqual(f, g);
    assert a[200..232] == b[200..232];
    forall i | 0 <= i < 4092 ensures f[i] == g[i] {
      if InWindow(i) {
        assert a[200..232][i - 200] == b[200..232][i - 200];
      }
    }
    assert a[..4092] == b[..4092];
    SuperblockSizes();
    PackUnpack(SB_CRC, a[4092..]);
    PackUnpack(SB_CRC, b[4092..]);
    assert Unpack(SB_CRC, a[4092..]) == [crc(a[..4092])] == Unpack(SB_CRC, b[4092..]);
    forall i | 4092 <= i < |f| ensures f[i] == g[i] {
      if i < 4096 {
        assert f[i] == a[4092..][i - 4092] && g[i] == b[4092..][i - 4092];
      }
    }
  }
}
