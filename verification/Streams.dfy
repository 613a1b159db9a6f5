// A binary stream opened on fixed bytes, whose reads may come back short.

module Streams {
  import opened Wrappers

  class ByteStream {
    const data: Bytes
    var position: nat

    constructor (data: Bytes)
      ensures this.data == data && position == 0
    {
      this.data := data;
      position := 0;
    }

    method Seek(to: nat)
      modifies this
      ensures position == to
    {
      position := to;
    }

    /** At most `n` bytes from the position, and none only at the end of the data. */
    method Read(n: nat) returns (chunk: Bytes)
      modifies this
      ensures |chunk| <= n && position == old(position) + |chunk|
      ensures old(position) >= |data| ==> chunk == []
      ensures old(position) < |data| && n > 0 ==> chunk != []
      ensures old(position) <= |data| ==> position <= |data| && chunk == data[old(position)..position]
    {
      if position >= |data| || n == 0 {
        return [];
      }
      var count: nat :| 0 < count <= n && position + count <= |data|;
      chunk := data[position..position + count];
      position := position + count;
    }

    /** Everything from the position on. */
    method ReadAll() returns (chunk: Bytes)
      modifies this
      ensures old(position) >= |data| ==> chunk == [] && position == old(position)
      ensures old(position) < |data| ==> position == |data| && chunk == data[old(position)..]
    {
      if position >= |data| {
        return [];
      }
      chunk := data[position..];
      position := |data|;
    }
  }
}
