// The two-layer oracle: output words and one recurrent state per layer behind a
// fixed header (_official_two_layer_oracle_payload and
// parse_official_two_layer_oracle, converter/k3x_converter/official_two_layer.py).
//
// Block sizes are symbolic.  A tensor is its sequence of 16-bit words; a 32-bit
// value takes two.

module Oracle {
  import opened Offsets
  import opened Struct
  import opened Wrappers

  type Word = x: int | 0 <= x < 0x1_0000

  type Words = seq<Word>

  /** How many output values, layers, convolution values and recurrent values there are. */
  datatype Dims = Dims(outputs: nat, layers: nat, conv: nat, recurrent: nat) {
    /** Each is stored in the header as an unsigned 64-bit integer. */
    predicate Packable() {
      AllFit(HEADER, Values())
    }

    function Values(): seq<int> {
      [outputs, layers, conv, recurrent]
    }

    /** The words of one state: three convolution blocks and the recurrent block. */
    function StateWords(): nat {
      3 * conv + 2 * recurrent
    }

    function TotalWords(): nat {
      outputs + layers * StateWords()
    }
  }

  const OFFICIAL_DIMS := Dims(2 * 7168, 2, 3 * 12288, 96 * 128 * 128)

  const HEADER: Format := [U64, U64] + [U64, U64]
  const HEADER_BYTES := 40
  const MAGIC: Bytes := [0x4B, 0x33, 0x58, 0x4F, 0x52, 0x43, 0x32, 0x00]  // "K3XORC2\0"

  datatype KdaState = KdaState(q: Words, k: Words, v: Words, recurrent: Words)

  datatype TwoLayerOracle = TwoLayerOracle(output: Words, states: seq<KdaState>)

  // --------------------------------------------------------------- words

  function Low(w: Word): byte {
    w % 256
  }

  function High(w: Word): byte {
    w / 256
  }

  function Join(low: byte, high: byte): (w: Word)
    ensures Low(w) == low && High(w) == high
  {
    low + 256 * high
  }

  lemma JoinSplit(w: Word)
    ensures Join(Low(w), High(w)) == w
  {
  }

  function AsBytes(ws: Words): (b: Bytes)
    ensures |b| == 2 * |ws|
  {
    if ws == [] then [] else AsBytes(ws[..|ws| - 1]) + [Low(ws[|ws| - 1]), High(ws[|ws| - 1])]
  }

  function AsWords(b: Bytes): (ws: Words)
    requires |b| % 2 == 0
    ensures 2 * |ws| == |b|
  {
    if b == [] then [] else AsWords(b[..|b| - 2]) + [Join(b[|b| - 2], b[|b| - 1])]
  }

  lemma LastWord(init: Bytes, low: byte, high: byte, b: Bytes)
    requires b == init + [low, high]
    ensures b[..|b| - 2] == init && b[|b| - 2] == low && b[|b| - 1] == high
  {
  }

  lemma {:induction false} WordsOfBytes(ws: Words)
    ensures AsWords(AsBytes(ws)) == ws
  {
    hide Join, Low, High;
    if ws != [] {
      var init, last := ws[..|ws| - 1], ws[|ws| - 1];
      WordsOfBytes(init);
      JoinSplit(last);
      var b := AsBytes(ws);
      LastWord(AsBytes(init), Low(last), High(last), b);
      assert ws == init + [last];
    }
  }

  lemma {:induction false} BytesOfWords(b: Bytes)
    requires |b| % 2 == 0
    ensures AsBytes(AsWords(b)) == b
  {
    hide Join, Low, High;
    if b != [] {
      var init, low, high := b[..|b| - 2], b[|b| - 2], b[|b| - 1];
      BytesOfWords(init);
      var ws := AsWords(b);
      assert ws[..|ws| - 1] == AsWords(init);
      assert b == init + [low, high];
    }
  }

  // -------------------------------------------------------------- payload

  predicate ShapedState(d: Dims, s: KdaState) {
    |s.q| == |s.k| == |s.v| == d.conv && |s.recurrent| == 2 * d.recurrent
  }

  /** Every block has its announced size. */
  predicate Shaped(d: Dims, o: TwoLayerOracle) {
    && |o.output| == d.outputs && |o.states| == d.layers
    && forall i :: 0 <= i < |o.states| ==> ShapedState(d, o.states[i])
  }

  function StateBody(s: KdaState): Words {
    s.q + s.k + s.v + s.recurrent
  }

  function StatesBody(states: seq<KdaState>): Words {
    if states == [] then [] else StatesBody(states[..|states| - 1]) + StateBody(states[|states| - 1])
  }

  function Body(o: TwoLayerOracle): Words {
    o.output + StatesBody(o.states)
  }

  function Header(d: Dims): Bytes
    requires d.Packable()
  {
    MAGIC + Pack(HEADER, d.Values())
  }

  lemma {:induction false} HeaderLength(d: Dims)
    requires d.Packable()
    ensures Size(HEADER) == 32 && |Header(d)| == HEADER_BYTES
  {
    hide Pack;
    SizeConcat([U64, U64], [U64, U64]);
    assert Size([U64, U64]) == U64.Width() + Size([U64]) by { assert [U64, U64][1..] == [U64]; }
    assert Size([U64]) == U64.Width() + Size([]) by { assert [U64][1..] == []; }
  }

  /** The payload of an oracle, or an error when a block has the wrong size. */
  function Payload(d: Dims, o: TwoLayerOracle): Result<Bytes>
    requires d.Packable()
  {
    if Shaped(d, o) then Ok(Header(d) + AsBytes(Body(o))) else Err(InvalidTwoLayerOracle)
  }

  lemma {:induction false} StatesLength(d: Dims, states: seq<KdaState>)
    requires forall i :: 0 <= i < |states| ==> ShapedState(d, states[i])
    ensures |StatesBody(states)| == |states| * d.StateWords()
  {
    if states != [] {
      StatesLength(d, states[..|states| - 1]);
      assert |states| * d.StateWords() == (|states| - 1) * d.StateWords() + d.StateWords();
    }
  }

  /** The header is the expected one exactly when its fields are. */
  lemma {:induction false} HeaderFields(d: Dims, b: Bytes)
    requires d.Packable() && |b| == HEADER_BYTES
    ensures |b[8..]| == Size(HEADER) && |Header(d)| == HEADER_BYTES
    ensures b == Header(d) <==> b[..8] == MAGIC && Unpack(HEADER, b[8..]) == d.Values()
  {
    hide Pack, Unpack, Size;
    HeaderLength(d);
    assert b == b[..8] + b[8..];
    PackUnpack(HEADER, b[8..]);
    UnpackPack(HEADER, d.Values());
    assert Header(d)[..8] == MAGIC && Header(d)[8..] == Pack(HEADER, d.Values());
  }

  // ---------------------------------------------------------------- parse

  /** Parse a payload, moving a cursor over its words.  A payload is accepted exactly
      when it is the payload of some oracle, which is then the result. */
  method ParseOracle(d: Dims, payload: Bytes) returns (r: Result<TwoLayerOracle>)
    requires d.Packable()
    ensures r.Ok? ==> Payload(d, r.value) == Ok(payload)
    ensures r.Err? ==> forall o :: Payload(d, o) != Ok(payload)
  {
    hide Pack, Unpack, Size, AsWords, AsBytes, Header, Shaped, Body, Dims.TotalWords;
    if |payload| != HEADER_BYTES + 2 * d.TotalWords() {
      forall o ensures Payload(d, o) != Ok(payload) {
        PayloadParts(d, o);
      }
      return Err(InvalidTwoLayerOracle);
    }
    var header, storage := payload[..HEADER_BYTES], payload[HEADER_BYTES..];
    HeaderFields(d, header);
    if header[..8] != MAGIC || Unpack(HEADER, header[8..]) != d.Values() {
      forall o ensures Payload(d, o) != Ok(payload) {
        PayloadParts(d, o);
      }
      return Err(InvalidTwoLayerOracle);
    }
    var oracle := ReadBody(d, AsWords(storage));
    BytesOfWords(storage);
    assert payload == header + storage;
    return Ok(oracle);
  }

  /** A payload is its header and the bytes of its body. */
  lemma {:induction false} PayloadParts(d: Dims, o: TwoLayerOracle)
    requires d.Packable()
    ensures Shaped(d, o) ==> Payload(d, o).Ok? && |Payload(d, o).value| == HEADER_BYTES + 2 * d.TotalWords()
    ensures Shaped(d, o) ==> Payload(d, o).value[..HEADER_BYTES] == Header(d)
    ensures !Shaped(d, o) ==> Payload(d, o).Err?
  {
    hide Pack, Size, AsBytes, Header, Body, Shaped, Dims.TotalWords;
    HeaderLength(d);
    if Shaped(d, o) {
      BodyLength(d, o);
    }
  }

  /** Cut the words into the output and one state per layer.  The final comparison of
      the cursor with the number of words cannot fail. */
  method ReadBody(d: Dims, words: Words) returns (o: TwoLayerOracle)
    requires |words| == d.TotalWords()
    ensures Shaped(d, o) && Body(o) == words
  {
    hide StatesBody, ShapedState, Dims.StateWords;
    var cursor := d.outputs;
    RoomForStates(d);
    var output := words[..cursor];
    var states := [];
    for i := 0 to d.layers
      invariant |states| == i && forall j :: 0 <= j < i ==> ShapedState(d, states[j])
      invariant cursor == d.outputs + i * d.StateWords() <= |words|
      invariant words[..cursor] == output + StatesBody(states)
    {
      RoomForState(d, i);
      var state := ReadState(d, words, cursor);
      StatesNext(states, state);
      var end := cursor + d.StateWords();
      assert words[..end] == words[..cursor] + words[cursor..end];
      cursor := end;
      states := states + [state];
    }
    assert cursor == |words| && words[..cursor] == words;
    return TwoLayerOracle(output, states);
  }

  lemma RoomForStates(d: Dims)
    ensures d.outputs <= d.TotalWords() && StatesBody([]) == []
  {
  }

  /** Cut three convolution blocks and the recurrent block. */
  method ReadState(d: Dims, words: Words, start: nat) returns (state: KdaState)
    requires start + d.StateWords() <= |words|
    ensures ShapedState(d, state) && StateBody(state) == words[start..start + d.StateWords()]
  {
    var cursor, kinds := start, [];
    for kind := 0 to 3
      invariant cursor == start + kind * d.conv && |kinds| == kind
      invariant forall j :: 0 <= j < kind ==> kinds[j] == words[start + j * d.conv..start + (j + 1) * d.conv]
    {
      var end := cursor + d.conv;
      kinds := kinds + [words[cursor..end]];
      cursor := end;
    }
    var end := cursor + 2 * d.recurrent;
    state := KdaState(kinds[0], kinds[1], kinds[2], words[cursor..end]);
    assert StateBody(state) == words[start..end];
  }

  lemma {:induction false} RoomForState(d: Dims, i: nat)
    requires i < d.layers
    ensures (i + 1) * d.StateWords() == i * d.StateWords() + d.StateWords()
    ensures d.outputs + (i + 1) * d.StateWords() <= d.TotalWords()
  {
    var rest := d.layers - (i + 1);
    assert d.layers * d.StateWords() == (i + 1) * d.StateWords() + rest * d.StateWords();
  }

  lemma {:induction false} StatesNext(states: seq<KdaState>, state: KdaState)
    ensures StatesBody(states + [state]) == StatesBody(states) + StateBody(state)
  {
    assert (states + [state])[..|states|] == states;
  }

  lemma {:induction false} BodyLength(d: Dims, o: TwoLayerOracle)
    requires Shaped(d, o)
    ensures |Body(o)| == d.TotalWords()
  {
    StatesLength(d, o.states);
  }

  // ----------------------------------------------------------- round trip

  lemma {:induction false} StatesInjective(d: Dims, a: seq<KdaState>, b: seq<KdaState>)
    requires |a| == |b| && StatesBody(a) == StatesBody(b)
    requires forall i :: 0 <= i < |a| ==> ShapedState(d, a[i]) && ShapedState(d, b[i])
    ensures a == b
  {
    if a != [] {
      var n := |a| - 1;
      StatesLength(d, a[..n]);
      StatesLength(d, b[..n]);
      var cut := |StatesBody(a[..n])|;
      assert StatesBody(a)[..cut] == StatesBody(a[..n]) && StatesBody(b)[..cut] == StatesBody(b[..n]);
      assert StatesBody(a)[cut..] == StateBody(a[n]) && StatesBody(b)[cut..] == StateBody(b[n]);
      StatesInjective(d, a[..n], b[..n]);
      StateInjective(d, a[n], b[n]);
      assert a == a[..n] + [a[n]] && b == b[..n] + [b[n]];
    }
  }

  lemma {:induction false} StateInjective(d: Dims, a: KdaState, b: KdaState)
    requires ShapedState(d, a) && ShapedState(d, b) && StateBody(a) == StateBody(b)
    ensures a == b
  {
    var c := d.conv;
    assert a.q == StateBody(a)[..c] && b.q == StateBody(b)[..c];
    assert a.k == StateBody(a)[c..2 * c] && b.k == StateBody(b)[c..2 * c];
    assert a.v == StateBody(a)[2 * c..3 * c] && b.v == StateBody(b)[2 * c..3 * c];
    assert a.recurrent == StateBody(a)[3 * c..] && b.recurrent == StateBody(b)[3 * c..];
  }

  /** A payload determines its oracle, so parsing what was written gives it back. */
  lemma {:induction false} PayloadIsInjective(d: Dims, a: TwoLayerOracle, b: TwoLayerOracle)
    requires d.Packable() && Payload(d, a).Ok? && Payload(d, a) == Payload(d, b)
    ensures a == b
  {
    hide Pack, Size, Header, StatesBody, ShapedState, AsBytes, AsWords;
    HeaderLength(d);
    var p := Payload(d, a).value;
    assert p[HEADER_BYTES..] == AsBytes(Body(a)) && p[HEADER_BYTES..] == AsBytes(Body(b));
    WordsOfBytes(Body(a));
    WordsOfBytes(Body(b));
    assert a.output == Body(a)[..d.outputs] && b.output == Body(b)[..d.outputs];
    assert StatesBody(a.states) == Body(a)[d.outputs..] && StatesBody(b.states) == Body(b)[d.outputs..];
    StatesInjective(d, a.states, b.states);
  }

  /** Write, then parse. */
  method WriteThenParse(d: Dims, o: TwoLayerOracle) returns (r: Result<TwoLayerOracle>)
    requires d.Packable()
    ensures r == if Shaped(d, o) then Ok(o) else Err(InvalidTwoLayerOracle)
  {
    var payload :- Payload(d, o);
    r := ParseOracle(d, payload);
    if r.Ok? {
      PayloadIsInjective(d, o, r.value);
    }
  }

  // -------------------------------------------------- where each word lies

  /** Word `w` of the storage is `x`, low byte first. */
  predicate WordAt(payload: Bytes, w: int, x: Word) {
    && 0 <= w && HEADER_BYTES + 2 * w + 1 < |payload|
    && payload[HEADER_BYTES + 2 * w] == x % 256 && payload[HEADER_BYTES + 2 * w + 1] == x / 256
  }

  /** The words from `start` on are `ws`. */
  ghost predicate WordsAt(payload: Bytes, start: int, ws: Words) {
    forall j :: 0 <= j < |ws| ==> WordAt(payload, start + j, ws[j])
  }

  lemma {:induction false} BytesAt(ws: Words, w: nat)
    requires w < |ws|
    ensures AsBytes(ws)[2 * w] == ws[w] % 256 && AsBytes(ws)[2 * w + 1] == ws[w] / 256
  {
    var init := ws[..|ws| - 1];
    if w < |init| {
      BytesAt(init, w);
      assert init[w] == ws[w];
    }
  }

  /** A block of the body is stored at its own words. */
  lemma {:induction false} BlockAt(d: Dims, o: TwoLayerOracle, start: nat, ws: Words)
    requires d.Packable() && Shaped(d, o)
    requires start + |ws| <= |Body(o)| && Body(o)[start..start + |ws|] == ws
    ensures Payload(d, o).Ok? && WordsAt(Payload(d, o).value, start, ws)
  {
    hide AsBytes, Body, Header, Shaped;
    HeaderLength(d);
    var payload, body := Payload(d, o).value, Body(o);
    forall j | 0 <= j < |ws| ensures WordAt(payload, start + j, ws[j]) {
      var w := start + j;
      BytesAt(body, w);
      assert body[start..start + |ws|][j] == body[w];
      assert payload[HEADER_BYTES + 2 * w] == AsBytes(body)[2 * w];
      assert payload[HEADER_BYTES + 2 * w + 1] == AsBytes(body)[2 * w + 1];
    }
  }

  lemma {:induction false} StateInside(d: Dims, states: seq<KdaState>, i: nat)
    requires i < |states| && forall j :: 0 <= j < |states| ==> ShapedState(d, states[j])
    ensures |StatesBody(states)| == |states| * d.StateWords()
    ensures 0 <= i * d.StateWords() <= (i + 1) * d.StateWords() <= |StatesBody(states)|
    ensures StatesBody(states)[i * d.StateWords()..(i + 1) * d.StateWords()] == StateBody(states[i])
  {
    hide StateBody, Dims.StateWords;
    StatesLength(d, states);
    var n, size := |states| - 1, d.StateWords();
    var init := states[..n];
    StatesLength(d, init);
    assert (n + 1) * size == n * size + size && (i + 1) * size == i * size + size;
    assert StatesBody(states) == StatesBody(init) + StateBody(states[n]);
    if i < n {
      StateInside(d, init, i);
      assert init[i] == states[i];
    } else {
      StateLength(d, states[n]);
    }
  }

  lemma StateLength(d: Dims, s: KdaState)
    requires ShapedState(d, s)
    ensures |StateBody(s)| == d.StateWords()
  {
  }

  /** The four blocks of state `i`, from word `at` on. */
  ghost predicate StateAt(payload: Bytes, d: Dims, at: int, s: KdaState) {
    && WordsAt(payload, at, s.q)
    && WordsAt(payload, at + d.conv, s.k)
    && WordsAt(payload, at + 2 * d.conv, s.v)
    && WordsAt(payload, at + 3 * d.conv, s.recurrent)
  }

  lemma {:induction false} StateStands(d: Dims, o: TwoLayerOracle, i: nat)
    requires d.Packable() && Shaped(d, o) && i < d.layers
    ensures Payload(d, o).Ok? && StateAt(Payload(d, o).value, d, d.outputs + i * d.StateWords(), o.states[i])
  {
    hide AsBytes, Header, WordsAt, StatesBody, Payload, AllFit, Dims.Packable, Dims.StateWords;
    var at, s, body := d.outputs + i * d.StateWords(), o.states[i], Body(o);
    var size, c := d.StateWords(), d.conv;
    StateInside(d, o.states, i);
    StateLength(d, s);
    assert (i + 1) * size == i * size + size;
    assert body[at..at + size] == StateBody(s);
    StateBlocks(d, s, body, at);
    hide Body, Shaped, StateBody;
    BlockAt(d, o, at, s.q);
    BlockAt(d, o, at + c, s.k);
    BlockAt(d, o, at + 2 * c, s.v);
    BlockAt(d, o, at + 3 * c, s.recurrent);
  }

  lemma BlocksOfState(d: Dims, s: KdaState)
    requires ShapedState(d, s)
    ensures var b, c := StateBody(s), d.conv;
            && |b| == d.StateWords() && b[0..c] == s.q && b[c..2 * c] == s.k && b[2 * c..3 * c] == s.v
            && b[3 * c..d.StateWords()] == s.recurrent
  {
  }

  lemma {:induction false} StateBlocks(d: Dims, s: KdaState, body: Words, at: nat)
    requires ShapedState(d, s) && at + d.StateWords() <= |body| && body[at..at + d.StateWords()] == StateBody(s)
    ensures at + 3 * d.conv + |s.recurrent| <= |body|
    ensures body[at..at + |s.q|] == s.q
    ensures body[at + d.conv..at + d.conv + |s.k|] == s.k
    ensures body[at + 2 * d.conv..at + 2 * d.conv + |s.v|] == s.v
    ensures body[at + 3 * d.conv..at + 3 * d.conv + |s.recurrent|] == s.recurrent
  {
    var c, size := d.conv, d.StateWords();
    BlocksOfState(d, s);
    assert |s.q| == |s.k| == |s.v| == c && 3 * c + |s.recurrent| == size;
    hide StateBody, ShapedState, Dims.StateWords;
    SliceOfSlice(body, at, at + size, 0, c);
    SliceOfSlice(body, at, at + size, c, 2 * c);
    SliceOfSlice(body, at, at + size, 2 * c, 3 * c);
    SliceOfSlice(body, at, at + size, 3 * c, size);
  }

  lemma {:induction false} HeaderPlaces(d: Dims, data: Bytes)
    requires d.Packable() && |data| >= HEADER_BYTES && data[..HEADER_BYTES] == Header(d)
    ensures data[..8] == [0x4B, 0x33, 0x58, 0x4F, 0x52, 0x43, 0x32, 0x00]
    ensures FieldAt(data, 8, 8, U64, d.outputs) && FieldAt(data, 16, 8, U64, d.layers)
    ensures FieldAt(data, 24, 8, U64, d.conv) && FieldAt(data, 32, 8, U64, d.recurrent)
  {
    hide Pack, Size, FieldAt, Fits;
    HeaderLength(d);
    assert data[8..40] == Pack(HEADER, d.Values()) && data[..8] == MAGIC by {
      assert data[8..40] == Header(d)[8..40];
      assert data[..8] == Header(d)[..8];
    }
    HeaderOffsets();
    PackedIn(data, 8, HEADER, d.Values(), 0);
    PackedIn(data, 8, HEADER, d.Values(), 1);
    PackedIn(data, 8, HEADER, d.Values(), 2);
    PackedIn(data, 8, HEADER, d.Values(), 3);
  }

  lemma {:induction false} HeaderOffsets()
    ensures |HEADER| == 4 && forall i :: 0 <= i < 4 ==> HEADER[i] == U64
    ensures Offset(HEADER, 0) == 0 && Offset(HEADER, 1) == 8 && Offset(HEADER, 2) == 16 && Offset(HEADER, 3) == 24
  {
    OffsetStep(HEADER, 0);
    OffsetStep(HEADER, 1);
    OffsetStep(HEADER, 2);
  }

  /** Where everything stands in a payload: the header fields, the output words, and for
      each layer q, k, v and the recurrent words, in that order. */
  lemma {:induction false} PayloadLayout(d: Dims, o: TwoLayerOracle, payload: Bytes)
    requires d.Packable() && Payload(d, o) == Ok(payload)
    ensures |payload| == 40 + 2 * (d.outputs + d.layers * (3 * d.conv + 2 * d.recurrent))
    ensures payload[..8] == [0x4B, 0x33, 0x58, 0x4F, 0x52, 0x43, 0x32, 0x00]
    ensures FieldAt(payload, 8, 8, U64, d.outputs) && FieldAt(payload, 16, 8, U64, d.layers)
    ensures FieldAt(payload, 24, 8, U64, d.conv) && FieldAt(payload, 32, 8, U64, d.recurrent)
    ensures |o.output| == d.outputs && WordsAt(payload, 0, o.output)
    ensures |o.states| == d.layers
    ensures forall i :: 0 <= i < d.layers ==> StateAt(payload, d, d.outputs + i * (3 * d.conv + 2 * d.recurrent), o.states[i])
  {
    hide AsBytes, Header, WordsAt, FieldAt, AllFit, Dims.Packable, StateAt, StatesBody;
    PayloadParts(d, o);
    HeaderPlaces(d, payload);
    BodyLength(d, o);
    BlockAt(d, o, 0, o.output);
    forall i | 0 <= i < d.layers
      ensures StateAt(payload, d, d.outputs + i * (3 * d.conv + 2 * d.recurrent), o.states[i])
    {
      StateStands(d, o, i);
    }
  }
}
