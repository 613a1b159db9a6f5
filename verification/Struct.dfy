// Little-endian packing of fixed-width integers, as `struct.pack("<...")` and
// `struct.unpack_from("<...")` do it.

module Struct {
  import opened Wrappers

  // ------------------------------------------------- one unsigned integer

  function Pow256(width: nat): (p: nat)
    ensures p > 0
  {
    if width == 0 then 1 else 256 * Pow256(width - 1)
  }

  function LittleEndian(value: nat, width: nat): (b: Bytes)
    ensures |b| == width
  {
    if width == 0 then [] else [value % 256] + LittleEndian(value / 256, width - 1)
  }

  function FromLittleEndian(b: Bytes): (value: nat)
    ensures value < Pow256(|b|)
  {
    if b == [] then 0 else b[0] + 256 * FromLittleEndian(b[1..])
  }

  lemma {:induction false} ReadsBack(value: nat, width: nat)
    requires value < Pow256(width)
    ensures FromLittleEndian(LittleEndian(value, width)) == value
  {
    if width > 0 {
      ReadsBack(value / 256, width - 1);
      assert LittleEndian(value, width)[1..] == LittleEndian(value / 256, width - 1);
    }
  }

  lemma {:induction false} WritesBack(b: Bytes)
    ensures LittleEndian(FromLittleEndian(b), |b|) == b
  {
    if b != [] {
      WritesBack(b[1..]);
      assert b == [b[0]] + b[1..];
      assert FromLittleEndian(b) / 256 == FromLittleEndian(b[1..]);
    }
  }

  // ---------------------------------------------------------- format codes

  datatype Code = U8 | U16 | U32 | I32 | U64 {
    function Width(): nat {
      match this
      case U8 => 1
      case U16 => 2
      case U32 => 4
      case I32 => 4
      case U64 => 8
    }
  }

  function Modulus(c: Code): int {
    match c
    case U8 => 0x100
    case U16 => 0x1_0000
    case U32 => 0x1_0000_0000
    case I32 => 0x1_0000_0000
    case U64 => 0x1_0000_0000_0000_0000
  }

  predicate Fits(c: Code, v: int) {
    if c.I32? then -0x8000_0000 <= v < 0x8000_0000 else 0 <= v < Modulus(c)
  }

  lemma {:induction false} ModulusIsPow(c: Code)
    ensures Modulus(c) == Pow256(c.Width())
  {
    assert Pow256(1) == 0x100;
    assert Pow256(2) == 0x1_0000;
    assert Pow256(3) == 0x100_0000;
    assert Pow256(4) == 0x1_0000_0000;
    assert Pow256(5) == 0x100_0000_0000;
    assert Pow256(6) == 0x1_0000_0000_0000;
    assert Pow256(7) == 0x100_0000_0000_0000;
    assert Pow256(8) == 0x1_0000_0000_0000_0000;
  }

  function PackOne(c: Code, v: int): (b: Bytes)
    requires Fits(c, v)
    ensures |b| == c.Width()
  {
    LittleEndian(if v < 0 then v + Modulus(c) else v, c.Width())
  }

  function UnpackOne(c: Code, b: Bytes): int
    requires |b| == c.Width()
  {
    var n := FromLittleEndian(b);
    if c.I32? && n >= 0x8000_0000 then n - Modulus(c) else n
  }

  lemma {:induction false} OneRoundTrip(c: Code, v: int)
    requires Fits(c, v)
    ensures UnpackOne(c, PackOne(c, v)) == v
  {
    ModulusIsPow(c);
    ReadsBack(if v < 0 then v + Modulus(c) else v, c.Width());
  }

  lemma {:induction false} OneCanonical(c: Code, b: Bytes)
    requires |b| == c.Width()
    ensures Fits(c, UnpackOne(c, b)) && PackOne(c, UnpackOne(c, b)) == b
  {
    ModulusIsPow(c);
    WritesBack(b);
  }

  // ------------------------------------------------------------- formats

  type Format = seq<Code>

  function Size(f: Format): nat {
    if f == [] then 0 else f[0].Width() + Size(f[1..])
  }

  lemma {:induction false} SizeConcat(f: Format, g: Format)
    ensures Size(f + g) == Size(f) + Size(g)
  {
    if f == [] {
      assert f + g == g;
    } else {
      assert (f + g)[1..] == f[1..] + g;
      SizeConcat(f[1..], g);
    }
  }

  predicate AllFit(f: Format, vs: seq<int>) {
    |f| == |vs| && forall i :: 0 <= i < |f| ==> Fits(f[i], vs[i])
  }

  function Pack(f: Format, vs: seq<int>): (b: Bytes)
    requires AllFit(f, vs)
    ensures |b| == Size(f)
  {
    if f == [] then [] else PackOne(f[0], vs[0]) + Pack(f[1..], vs[1..])
  }

  function Unpack(f: Format, b: Bytes): (vs: seq<int>)
    requires |b| == Size(f)
    ensures |vs| == |f|
  {
    if f == [] then [] else
      [UnpackOne(f[0], b[..f[0].Width()])] + Unpack(f[1..], b[f[0].Width()..])
  }

  /** Every packed tuple reads back. */
  lemma {:induction false} UnpackPack(f: Format, vs: seq<int>)
    requires AllFit(f, vs)
    ensures Unpack(f, Pack(f, vs)) == vs
  {
    if f != [] {
      var head, tail := PackOne(f[0], vs[0]), Pack(f[1..], vs[1..]);
      assert (head + tail)[..f[0].Width()] == head;
      assert (head + tail)[f[0].Width()..] == tail;
      OneRoundTrip(f[0], vs[0]);
      UnpackPack(f[1..], vs[1..]);
      assert vs == [vs[0]] + vs[1..];
    }
  }

  lemma {:induction false} AllFitCons(f: Format, vs: seq<int>)
    requires f != [] && |vs| == |f| && Fits(f[0], vs[0]) && AllFit(f[1..], vs[1..])
    ensures AllFit(f, vs)
  {
    forall i | 0 < i < |f| ensures Fits(f[i], vs[i]) {
      assert f[i] == f[1..][i - 1] && vs[i] == vs[1..][i - 1];
    }
  }

  /** Every byte string of the right size is the packing of what it unpacks to. */
  lemma {:induction false} PackUnpack(f: Format, b: Bytes)
    requires |b| == Size(f)
    ensures AllFit(f, Unpack(f, b)) && Pack(f, Unpack(f, b)) == b
  {
    hide PackOne, UnpackOne, Fits, LittleEndian, FromLittleEndian;
    if f != [] {
      var head, tail := b[..f[0].Width()], b[f[0].Width()..];
      OneCanonical(f[0], head);
      PackUnpack(f[1..], tail);
      var vs := Unpack(f, b);
      assert vs == [UnpackOne(f[0], head)] + Unpack(f[1..], tail);
      assert vs[1..] == Unpack(f[1..], tail);
      AllFitCons(f, vs);
      assert Pack(f, vs) == PackOne(f[0], vs[0]) + Pack(f[1..], vs[1..]);
      assert b == head + tail;
    } else {
      assert Unpack(f, b) == [] && Pack(f, []) == [];
    }
  }

  /** The block after `b` was written over it at `offset`. */
  function Overwrite(block: Bytes, offset: nat, b: Bytes): (r: Bytes)
    requires offset + |b| <= |block|
    ensures |r| == |block|
  {
    block[..offset] + b + block[offset + |b|..]
  }

  /** Writing `b` where a prefix `done` ends and only zeros follow. */
  lemma OverwriteNext(done: Bytes, b: Bytes, n: nat)
    requires |b| <= n
    ensures Overwrite(done + Zeros(n), |done|, b) == (done + b) + Zeros(n - |b|)
  {
  }

  /** `struct.pack_into`: the format's bytes over the block, in place. */
  method PackInto(f: Format, block: array<byte>, offset: nat, vs: seq<int>) returns (ok: bool)
    requires |f| == |vs| && offset + Size(f) <= block.Length
    modifies block
    ensures ok <==> AllFit(f, vs)
    ensures !ok ==> block[..] == old(block[..])
    ensures ok ==> block[..] == Overwrite(old(block[..]), offset, Pack(f, vs))
  {
    if !(forall i :: 0 <= i < |f| ==> Fits(f[i], vs[i])) {
      return false;
    }
    Store(block, offset, Pack(f, vs));
    return true;
  }

  /** Slice assignment of equal length. */
  method Store(block: array<byte>, offset: nat, b: Bytes)
    requires offset + |b| <= block.Length
    modifies block
    ensures block[..] == Overwrite(old(block[..]), offset, b)
  {
    for i := 0 to |b|
      invariant forall k :: 0 <= k < block.Length ==>
                  block[k] == if offset <= k < offset + i then b[k - offset] else old(block[k])
    {
      block[offset + i] := b[i];
    }
  }

  function Zeros(n: nat): (z: Bytes)
    ensures |z| == n
  {
    seq(n, _ => 0)
  }

  /** A zeroed record of `size` bytes with two consecutive formats packed into it. */
  method PackRecord(size: nat, f: Format, vs: seq<int>, g: Format, ws: seq<int>) returns (out: Result<Bytes>)
    requires |f| == |vs| && |g| == |ws| && Size(f) + Size(g) <= size
    ensures out == if AllFit(f, vs) && AllFit(g, ws)
                   then Ok(Pack(f, vs) + Pack(g, ws) + Zeros(size - Size(f) - Size(g)))
                   else Err(StructRange)
  {
    var record := new byte[size](_ => 0);
    assert record[..] == [] + Zeros(size);
    var ok := PackInto(f, record, 0, vs);
    if !ok {
      return Err(StructRange);
    }
    OverwriteNext([], Pack(f, vs), size);
    assert [] + Pack(f, vs) == Pack(f, vs);
    ok := PackInto(g, record, Size(f), ws);
    if !ok {
      return Err(StructRange);
    }
    OverwriteNext(Pack(f, vs), Pack(g, ws), size - Size(f));
    return Ok(record[..]);
  }

  lemma AllZeros(b: Bytes)
    requires AllZero(b)
    ensures b == Zeros(|b|)
  {
  }

  lemma SplitZeros(done: Bytes, m: nat, n: nat)
    ensures done + Zeros(m + n) == (done + Zeros(m)) + Zeros(n)
  {
  }

  lemma NoZeros(done: Bytes)
    ensures done + Zeros(0) == done
  {
  }

  predicate AllZero(b: Bytes) {
    forall i :: 0 <= i < |b| ==> b[i] == 0
  }
}
