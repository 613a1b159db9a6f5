// The replay that turns the recorded executions of a run into a trace
// (derive_official_two_layer_trace, converter/k3x_converter/official_two_layer.py),
// and the run followed by its replay (materialize_official_two_layer).
//
// The replay asks its executor for one execution per call, in call order, and sees
// nothing of it but the answers.  The answers are therefore modelled as a log.

module TwoLayerTrace {
  import opened TwoLayer
  import opened Wrappers

  /** The positions and layer numbers a trace must have, in order. */
  datatype Order = Order(names: seq<string>, layerIds: seq<int>)

  /** The released order: positions a and b, layers 1 and 2. */
  const OFFICIAL := Order(["a", "b"], [1, 2])

  datatype TraceStep = TraceStep(
    position: string, layerId: int, hiddenSha256: Digest, blockSha256: Digest, consumesSha256: Digest,
    stateSha256: Digest, kdaSha256: Digest, route: Route, contributionSha256: Digest, outputSha256: Digest)

  datatype Trace = Trace(
    steps: seq<TraceStep>, selected: seq<seq<int>>, initialSha256: seq<Digest>, finalSha256: seq<Digest>,
    outputs: seq<Vector>)

  predicate IsHex(c: char) {
    '0' <= c <= '9' || 'a' <= c <= 'f'
  }

  /** 64 lower-case hexadecimal digits. */
  predicate ValidDigest(d: Digest) {
    |d| == 64 && forall i :: 0 <= i < |d| ==> IsHex(d[i])
  }

  predicate IsClose(x: real, y: real, tolerance: real) {
    -tolerance <= x - y <= tolerance
  }

  predicate ValidRoute(route: Route) {
    && route.experts != [] && |route.experts| == |route.contributions|
    && Distinct(route.experts)
    && (forall i :: 0 <= i < |route.experts| ==> 0 <= route.experts[i] < EXPERTS)
    && (forall i :: 0 <= i < |route.contributions| ==> route.contributions[i] >= 0.0)
    && IsClose(Sum(route.contributions), 1.0, 0.000001)
  }

  /** What the replay demands of one execution for a position of width `width`. */
  predicate ValidResult(result: Execution, width: nat) {
    && |result.output| == width
    && ValidDigest(result.state.sha256) && ValidDigest(result.kdaSha256)
    && ValidRoute(result.route)
  }

  predicate ValidInput(k: Kernels, item: LayerInput) {
    && item.hidden != [] && |item.hidden| == |item.block|
    && item.hiddenSha256 == k.floatDigest(item.hidden)
    && item.blockSha256 == k.floatDigest(item.block)
  }

  /** The planned layers, positions and initial states are the expected ones, and
      every input carries its own digests. */
  predicate InOrder(k: Kernels, order: Order, planned: seq<int>, inputs: seq<LayerInput>, initial: seq<State>) {
    && planned == order.layerIds
    && |inputs| == |order.names| && (forall i :: 0 <= i < |inputs| ==> inputs[i].name == order.names[i])
    && |initial| == |planned| && (forall l :: 0 <= l < |initial| ==> ValidDigest(initial[l].sha256))
    && forall i :: 0 <= i < |inputs| ==> ValidInput(k, inputs[i])
  }

  /** A trace step links to the call one layer below through the hidden digest, and
      to the call one position before through the state digest. */
  function Stepped(k: Kernels, item: LayerInput, layerId: int, consumed: State, result: Execution): TraceStep {
    TraceStep(item.name, layerId, item.hiddenSha256, item.blockSha256, consumed.sha256,
              result.state.sha256, result.kdaSha256, result.route, k.contributionDigest(result.route),
              k.floatDigest(result.output))
  }

  // --------------------------------------------------- what a log stands for

  /** Inputs, initial states, and the executions the replay reads. */
  datatype Recording = Recording(
    kernels: Kernels, order: Order, planned: seq<int>, inputs: seq<LayerInput>, initial: seq<State>,
    log: seq<Execution>)
  {
    function Layers(): nat {
      |planned|
    }

    predicate InputsOk() {
      InOrder(kernels, order, planned, inputs, initial)
    }

    predicate Has(i: nat, l: nat) {
      i < |inputs| && l < Layers() && Call(i, l, Layers()) < |log|
    }

    function At(i: nat, l: nat): Execution
      requires Has(i, l)
    {
      log[Call(i, l, Layers())]
    }

    /** The call a state comes from has been recorded. */
    predicate HasState(i: nat, l: nat) {
      l < |initial| && (i > 0 ==> Has(i - 1, l))
    }

    /** The calls a state and an input come from have been recorded. */
    predicate Known(i: nat, l: nat) {
      HasState(i, l) && i < |inputs| && (l > 0 ==> Has(i, l - 1))
    }

    function StateBefore(i: nat, l: nat): State
      requires HasState(i, l)
    {
      if i == 0 then initial[l] else At(i - 1, l).state
    }

    function InputAt(i: nat, l: nat): LayerInput
      requires i < |inputs| && (l > 0 ==> Has(i, l - 1))
    {
      if l == 0 then inputs[i] else Advance(kernels, inputs[i], At(i, l - 1).output)
    }

    function StepAt(i: nat, l: nat): TraceStep
      requires Known(i, l) && Has(i, l)
    {
      Stepped(kernels, InputAt(i, l), planned[l], StateBefore(i, l), At(i, l))
    }

    /** The ids recorded for layer `l` at the first `n` positions, in order. */
    function Routed(l: nat, n: nat): seq<int> {
      if n == 0 then [] else Routed(l, n - 1) + (if Has(n - 1, l) then At(n - 1, l).route.experts else [])
    }
  }

  /** Every call before (i, l) has a recorded execution. */
  predicate Recorded(rec: Recording, i: nat, l: nat) {
    && |rec.initial| == rec.Layers() && i <= |rec.inputs| && l <= rec.Layers()
    && (l > 0 ==> i < |rec.inputs|) && Call(i, l, rec.Layers()) <= |rec.log|
  }

  lemma {:induction false} RecordedHas(rec: Recording, i: nat, l: nat, j: nat, m: nat)
    requires Recorded(rec, i, l) && Before(j, m, i, l, rec.Layers())
    ensures rec.Has(j, m)
  {
    hide Call;
    var layers := rec.Layers();
    if l < layers {
      CallInjective(i, l, j, m, layers);
    } else {
      RowEnds(i, layers);
      CallInjective(i + 1, 0, j, m, layers);
    }
  }

  lemma {:induction false} RecordedKnown(rec: Recording, i: nat, l: nat, j: nat, m: nat)
    requires Recorded(rec, i, l) && Before(j, m, i, l, rec.Layers())
    ensures rec.Known(j, m) && rec.Has(j, m)
  {
    hide Recording.Has, Call;
    RecordedHas(rec, i, l, j, m);
    if j > 0 {
      RecordedHas(rec, i, l, j - 1, m);
    }
    if m > 0 {
      RecordedHas(rec, i, l, j, m - 1);
    }
  }

  // -------------------------------------------------------------- the trace

  ghost predicate StepsAt(rec: Recording, steps: seq<TraceStep>, i: nat, l: nat) {
    && |steps| == Call(i, l, rec.Layers())
    && forall j: nat, m: nat | Before(j, m, i, l, rec.Layers()) ::
         && rec.Known(j, m) && rec.Has(j, m) && Call(j, m, rec.Layers()) < |steps|
         && steps[Call(j, m, rec.Layers())] == rec.StepAt(j, m)
  }

  ghost predicate KnownStates(rec: Recording, states: seq<State>, i: nat, l: nat) {
    && |states| == rec.Layers() == |rec.initial|
    && forall m: nat | m < |states| ::
         rec.HasState(Done(m, i, l), m) && states[m] == rec.StateBefore(Done(m, i, l), m)
  }

  /** How many positions layer `m` has executed before call (i, l). */
  function Done(m: nat, i: nat, l: nat): nat {
    if m < l then i + 1 else i
  }

  ghost predicate SelectedAt(rec: Recording, selected: seq<seq<int>>, i: nat, l: nat) {
    && |selected| == rec.Layers()
    && forall m: nat | m < |selected| :: selected[m] == FirstUse(rec.Routed(m, Done(m, i, l)))
  }

  ghost predicate OutputsAt(rec: Recording, outputs: seq<Vector>, i: nat) {
    && |outputs| == i <= |rec.inputs|
    && forall j: nat | j < i ::
         (rec.Layers() > 0 ==> rec.Has(j, rec.Layers() - 1)) && outputs[j] == rec.InputAt(j, rec.Layers()).hidden
  }

  ghost predicate ValidBefore(rec: Recording, i: nat, l: nat) {
    && i <= |rec.inputs| && (l > 0 ==> i < |rec.inputs|)
    && forall j: nat, m: nat | Before(j, m, i, l, rec.Layers()) ::
         rec.Has(j, m) && ValidResult(rec.At(j, m), |rec.inputs[j].hidden|)
  }

  /** The trace of a recording, field by field. */
  ghost predicate IsTrace(rec: Recording, t: Trace) {
    && StepsAt(rec, t.steps, |rec.inputs|, 0)
    && SelectedAt(rec, t.selected, |rec.inputs|, 0)
    && t.initialSha256 == Digests(rec.initial)
    && FinalAt(rec, t.finalSha256)
    && OutputsAt(rec, t.outputs, |rec.inputs|)
  }

  ghost predicate FinalAt(rec: Recording, digests: seq<Digest>) {
    && |digests| == rec.Layers() == |rec.initial|
    && forall m: nat | m < |digests| ::
         rec.HasState(|rec.inputs|, m) && digests[m] == rec.StateBefore(|rec.inputs|, m).sha256
  }

  function Digests(states: seq<State>): (r: seq<Digest>)
    ensures |r| == |states| && forall i :: 0 <= i < |states| ==> r[i] == states[i].sha256
  {
    seq(|states|, i requires 0 <= i < |states| => states[i].sha256)
  }

  // -------------------------------------------------- the steps of the replay

  lemma {:induction false} StartOfReplay(rec: Recording, selected: seq<seq<int>>)
    requires rec.InputsOk() && |selected| == rec.Layers() && forall l :: 0 <= l < |selected| ==> selected[l] == []
    ensures Recorded(rec, 0, 0) && Call(0, 0, rec.Layers()) == 0
    ensures StepsAt(rec, [], 0, 0) && KnownStates(rec, rec.initial, 0, 0)
    ensures SelectedAt(rec, selected, 0, 0) && OutputsAt(rec, [], 0) && ValidBefore(rec, 0, 0)
  {
    hide ValidInput, ValidDigest, ValidResult;
    NothingBefore(rec, 0, 0);
  }

  lemma NothingBefore(rec: Recording, i: nat, l: nat)
    requires i == 0 && l == 0
    ensures ValidBefore(rec, i, l)
  {
  }

  lemma {:induction false} StateOf(rec: Recording, states: seq<State>, i: nat, l: nat, m: nat)
    requires KnownStates(rec, states, i, l) && l <= m < rec.Layers()
    ensures m < |states| && rec.HasState(i, m) && states[m] == rec.StateBefore(i, m)
  {
    assert Done(m, i, l) == i && m < |states|;
    assert states[m] == rec.StateBefore(Done(m, i, l), m);
  }

  lemma HasNext(rec: Recording, i: nat, l: nat)
    requires i < |rec.inputs| && l < rec.Layers() && Recorded(rec, i, l) && Call(i, l, rec.Layers()) < |rec.log|
    ensures Recorded(rec, i, l + 1) && Call(i, l + 1, rec.Layers()) == Call(i, l, rec.Layers()) + 1
    ensures rec.Has(i, l) && rec.At(i, l) == rec.log[Call(i, l, rec.Layers())]
  {
  }

  lemma {:induction false} Exhausted(rec: Recording, i: nat, l: nat)
    requires i < |rec.inputs| && l < rec.Layers() && Call(i, l, rec.Layers()) >= |rec.log|
    ensures !ValidBefore(rec, |rec.inputs|, 0)
  {
    hide ValidResult, Call;
    NotValid(rec, i, l);
  }

  /** A call with no answer, or with a bad one, is a call before the end. */
  lemma {:induction false} NotValid(rec: Recording, i: nat, l: nat)
    requires i < |rec.inputs| && l < rec.Layers()
    requires rec.Has(i, l) ==> !ValidResult(rec.At(i, l), |rec.inputs[i].hidden|)
    ensures !ValidBefore(rec, |rec.inputs|, 0)
  {
    hide ValidResult, Call;
    assert Before(i, l, |rec.inputs|, 0, rec.Layers());
  }

  lemma {:induction false} StepsNext(rec: Recording, steps: seq<TraceStep>, i: nat, l: nat)
    requires i < |rec.inputs| && l < rec.Layers() && StepsAt(rec, steps, i, l) && Recorded(rec, i, l + 1)
    ensures rec.Known(i, l) && rec.Has(i, l) && StepsAt(rec, steps + [rec.StepAt(i, l)], i, l + 1)
  {
    hide Call, Recording.Has, Recording.StepAt;
    var layers := rec.Layers();
    RecordedKnown(rec, i, l + 1, i, l);
    CallOrder(i, l, |rec.inputs|, layers);
    var steps' := steps + [rec.StepAt(i, l)];
    forall j: nat, m: nat | Before(j, m, i, l + 1, layers)
      ensures rec.Known(j, m) && rec.Has(j, m) && Call(j, m, layers) < |steps'|
      ensures steps'[Call(j, m, layers)] == rec.StepAt(j, m)
    {
      if Before(j, m, i, l, layers) {
        assert steps[Call(j, m, layers)] == rec.StepAt(j, m);
      }
    }
  }

  lemma {:induction false} KnownNext(rec: Recording, states: seq<State>, i: nat, l: nat)
    requires i < |rec.inputs| && l < rec.Layers() && KnownStates(rec, states, i, l) && rec.Has(i, l)
    ensures KnownStates(rec, states[l := rec.At(i, l).state], i, l + 1)
  {
    hide Call, Recording.Has;
    var states', next: nat := states[l := rec.At(i, l).state], l + 1;
    forall m: nat | m < |states'|
      ensures rec.HasState(Done(m, i, next), m) && states'[m] == rec.StateBefore(Done(m, i, next), m)
    {
      assert m != l ==> Done(m, i, next) == Done(m, i, l) && states'[m] == states[m];
    }
  }

  lemma {:induction false} ValidNext(rec: Recording, i: nat, l: nat)
    requires i < |rec.inputs| && l < rec.Layers() && ValidBefore(rec, i, l)
    requires rec.Has(i, l) && ValidResult(rec.At(i, l), |rec.inputs[i].hidden|)
    ensures ValidBefore(rec, i, l + 1)
  {
    hide ValidResult, Call, Recording.Has;
    forall j: nat, m: nat | Before(j, m, i, l + 1, rec.Layers())
      ensures rec.Has(j, m) && ValidResult(rec.At(j, m), |rec.inputs[j].hidden|)
    {
      assert Before(j, m, i, l, rec.Layers()) || (j == i && m == l);
    }
  }

  lemma {:induction false} SelectedNext(rec: Recording, selected: seq<seq<int>>, i: nat, l: nat)
    requires i < |rec.inputs| && l < rec.Layers() && SelectedAt(rec, selected, i, l) && rec.Has(i, l)
    ensures l < |selected| && selected[l] == FirstUse(rec.Routed(l, i))
    ensures SelectedAt(rec, selected[l := FirstUse(rec.Routed(l, i) + rec.At(i, l).route.experts)], i, l + 1)
  {
    hide FirstUse, Call, Recording.Has;
  }

  lemma {:induction false} EndOfRow(rec: Recording, steps: seq<TraceStep>, states: seq<State>,
                                    selected: seq<seq<int>>, outputs: seq<Vector>, i: nat)
    requires i < |rec.inputs| && Recorded(rec, i, rec.Layers())
    requires StepsAt(rec, steps, i, rec.Layers()) && KnownStates(rec, states, i, rec.Layers())
    requires SelectedAt(rec, selected, i, rec.Layers()) && ValidBefore(rec, i, rec.Layers())
    requires OutputsAt(rec, outputs, i) && (rec.Layers() > 0 ==> rec.Has(i, rec.Layers() - 1))
    ensures Call(i, rec.Layers(), rec.Layers()) == Call(i + 1, 0, rec.Layers())
    ensures Recorded(rec, i + 1, 0) && StepsAt(rec, steps, i + 1, 0) && KnownStates(rec, states, i + 1, 0)
    ensures SelectedAt(rec, selected, i + 1, 0) && ValidBefore(rec, i + 1, 0)
    ensures OutputsAt(rec, outputs + [rec.InputAt(i, rec.Layers()).hidden], i + 1)
  {
    hide Call, FirstUse, ValidResult, Recording.Has, Recording.StepAt, Recording.Known;
    var layers := rec.Layers();
    RowEnds(i, layers);
    assert forall j: nat, m: nat :: Before(j, m, i + 1, 0, layers) ==> Before(j, m, i, layers, layers);
  }

  // ------------------------------------------- what a trace says, field by field

  /** Step `i * layers + l` of a trace against the recorded executions: its position and
      layer, the input it was given, the state it consumed, and everything it produced. */
  ghost predicate StepHolds(rec: Recording, t: Trace, i: nat, l: nat)
    requires i < |rec.inputs| && l < |rec.planned|
  {
    StepHoldsAt(rec, t, i, l, i * |rec.planned| + l)
  }

  ghost predicate StepHoldsAt(rec: Recording, t: Trace, i: nat, l: nat, n: int)
    requires i < |rec.inputs| && l < |rec.planned|
  {
    var layers, item := |rec.planned|, rec.inputs[i];
    && 0 <= n < |t.steps| && n < |rec.log| && |rec.initial| == layers && (l > 0 ==> 0 <= n - 1) && (i > 0 ==> 0 <= n - layers)
    && var s, e := t.steps[n], rec.log[n];
       && s.position == item.name && s.layerId == rec.planned[l] && s.blockSha256 == item.blockSha256
       && s.hiddenSha256 == (if l == 0 then item.hiddenSha256 else rec.kernels.floatDigest(rec.log[n - 1].output))
       && s.consumesSha256 == (if i == 0 then rec.initial[l].sha256 else rec.log[n - layers].state.sha256)
       && s.stateSha256 == e.state.sha256 && s.kdaSha256 == e.kdaSha256 && s.route == e.route
       && s.contributionSha256 == rec.kernels.contributionDigest(e.route)
       && s.outputSha256 == rec.kernels.floatDigest(e.output)
  }

  /** The last output of a position. */
  ghost predicate OutputHolds(rec: Recording, t: Trace, i: nat)
    requires i < |rec.inputs|
  {
    var layers := |rec.planned|;
    && i < |t.outputs| && 0 <= i * layers && (layers > 0 ==> i * layers + layers - 1 < |rec.log|)
    && t.outputs[i] == if layers == 0 then rec.inputs[i].hidden else rec.log[i * layers + layers - 1].output
  }

  /** The first and last state of a layer, and the experts its steps used, each once. */
  ghost predicate LayerHolds(rec: Recording, t: Trace, l: nat)
    requires l < |rec.planned|
  {
    var positions, layers := |rec.inputs|, |rec.planned|;
    && |t.initialSha256| == |t.finalSha256| == |t.selected| == |rec.initial| == layers
    && t.initialSha256[l] == rec.initial[l].sha256
    && (positions > 0 ==> 0 <= (positions - 1) * layers + l < |rec.log|)
    && t.finalSha256[l] == (if positions == 0 then rec.initial[l].sha256
                            else rec.log[(positions - 1) * layers + l].state.sha256)
    && Distinct(t.selected[l])
    && forall id :: id in t.selected[l] <==> UsedAt(rec, l, positions, id)
  }

  /** One of the first `n` positions used the expert in the layer. */
  ghost predicate UsedAt(rec: Recording, l: nat, n: nat, id: int) {
    exists i: nat :: i < n && rec.Has(i, l) && id in rec.At(i, l).route.experts
  }

  lemma {:induction false} RoutedUsed(rec: Recording, l: nat, n: nat, id: int)
    ensures id in rec.Routed(l, n) <==> UsedAt(rec, l, n, id)
  {
    hide Recording.Has, Recording.At;
    if n > 0 {
      RoutedUsed(rec, l, n - 1, id);
      if UsedAt(rec, l, n - 1, id) {
        var i: nat :| i < n - 1 && rec.Has(i, l) && id in rec.At(i, l).route.experts;
        assert UsedAt(rec, l, n, id);
      }
    }
  }

  /** Every route fits the released model: distinct ids below 896, one contribution each,
      none negative, adding up to one within a millionth; and all digests are digests. */
  lemma {:induction false} ValidMeans(e: Execution, width: nat)
    ensures ValidResult(e, width) <==>
              && |e.output| == width
              && |e.state.sha256| == 64 && (forall c :: c in e.state.sha256 ==> '0' <= c <= '9' || 'a' <= c <= 'f')
              && |e.kdaSha256| == 64 && (forall c :: c in e.kdaSha256 ==> '0' <= c <= '9' || 'a' <= c <= 'f')
              && |e.route.experts| == |e.route.contributions| > 0
              && (forall i, j :: 0 <= i < j < |e.route.experts| ==> e.route.experts[i] != e.route.experts[j])
              && (forall id :: id in e.route.experts ==> 0 <= id < 896)
              && (forall c :: c in e.route.contributions ==> c >= 0.0)
              && 0.999999 <= Sum(e.route.contributions) <= 1.000001
  {
    hide Sum;
    DigestMeans(e.state.sha256);
    DigestMeans(e.kdaSha256);
    hide ValidDigest;
    InRange(e.route);
  }

  lemma {:induction false} InRange(route: Route)
    ensures (forall i :: 0 <= i < |route.experts| ==> 0 <= route.experts[i] < EXPERTS) <==>
            (forall id :: id in route.experts ==> 0 <= id < 896)
    ensures (forall i :: 0 <= i < |route.contributions| ==> route.contributions[i] >= 0.0) <==>
            (forall c :: c in route.contributions ==> c >= 0.0)
  {
    if forall id :: id in route.experts ==> 0 <= id < 896 {
      forall i | 0 <= i < |route.experts| ensures 0 <= route.experts[i] < EXPERTS {
        assert route.experts[i] in route.experts;
      }
    }
    if forall c :: c in route.contributions ==> c >= 0.0 {
      forall i | 0 <= i < |route.contributions| ensures route.contributions[i] >= 0.0 {
        assert route.contributions[i] in route.contributions;
      }
    }
  }

  /** The replay looks at a run when the layers are the expected ones, the positions go by
      the expected names in order, there is one well-formed state a layer, and every input
      has a block of its own width and the digests of its own two vectors. */
  lemma {:induction false} OrderMeans(rec: Recording)
    ensures rec.InputsOk() <==>
              && rec.planned == rec.order.layerIds && |rec.initial| == |rec.planned|
              && |rec.inputs| == |rec.order.names|
              && (forall l :: 0 <= l < |rec.initial| ==> ValidDigest(rec.initial[l].sha256))
              && forall i :: 0 <= i < |rec.inputs| ==>
                   && rec.inputs[i].name == rec.order.names[i]
                   && |rec.inputs[i].hidden| == |rec.inputs[i].block| > 0
                   && rec.inputs[i].hiddenSha256 == rec.kernels.floatDigest(rec.inputs[i].hidden)
                   && rec.inputs[i].blockSha256 == rec.kernels.floatDigest(rec.inputs[i].block)
  {
    hide ValidDigest;
    if rec.InputsOk() {
      assert forall i :: 0 <= i < |rec.inputs| ==> ValidInput(rec.kernels, rec.inputs[i]);
    }
  }

  lemma {:induction false} DigestMeans(d: Digest)
    ensures ValidDigest(d) <==> |d| == 64 && forall c :: c in d ==> '0' <= c <= '9' || 'a' <= c <= 'f'
  {
    if forall c :: c in d ==> '0' <= c <= '9' || 'a' <= c <= 'f' {
      forall i | 0 <= i < |d| ensures IsHex(d[i]) {
        assert d[i] in d;
      }
    }
  }

  lemma {:induction false} StepMeansAt(rec: Recording, t: Trace, i: nat, l: nat, n: nat)
    requires rec.Known(i, l) && rec.Has(i, l) && |rec.initial| == |rec.planned|
    requires Call(i, l, |rec.planned|) == n < |t.steps| && t.steps[n] == rec.StepAt(i, l)
    requires i > 0 ==> Call(i - 1, l, |rec.planned|) == n - |rec.planned|
    requires l > 0 ==> Call(i, l - 1, |rec.planned|) == n - 1
    ensures StepHoldsAt(rec, t, i, l, n)
  {
    hide Call;
  }

  lemma {:induction false} StepMeans(rec: Recording, t: Trace, i: nat, l: nat)
    requires IsTrace(rec, t) && |rec.initial| == |rec.planned| && i < |rec.inputs| && l < |rec.planned|
    ensures StepHolds(rec, t, i, l)
  {
    hide SelectedAt, OutputsAt, FinalAt, FirstUse, StepHoldsAt, Call, Recording.Has, Recording.Known, Recording.StepAt;
    var layers := |rec.planned|;
    assert Before(i, l, |rec.inputs|, 0, layers);
    var n := Call(i, l, layers);
    assert n < |t.steps| && t.steps[n] == rec.StepAt(i, l);
    PlacesOfCall(i, l, layers);
    StepMeansAt(rec, t, i, l, n);
  }

  lemma {:induction false} PlacesOfCall(i: nat, l: nat, layers: nat)
    ensures Call(i, l, layers) == i * layers + l
    ensures i > 0 ==> Call(i - 1, l, layers) == i * layers + l - layers
    ensures l > 0 ==> Call(i, l - 1, layers) == i * layers + l - 1
  {
    assert (i - 1) * layers == i * layers - layers;
  }

  lemma {:induction false} OutputMeans(rec: Recording, t: Trace, i: nat)
    requires IsTrace(rec, t) && |rec.initial| == |rec.planned| && i < |rec.inputs|
    ensures OutputHolds(rec, t, i)
  {
    hide SelectedAt, StepsAt, FinalAt, FirstUse;
    var output := t.outputs[i];
    assert output == rec.InputAt(i, |rec.planned|).hidden;
    hide OutputsAt;
    PlacesOfCall(i, |rec.planned|, |rec.planned|);
  }

  lemma {:induction false} LayerMeans(rec: Recording, t: Trace, l: nat)
    requires IsTrace(rec, t) && |rec.initial| == |rec.planned| && l < |rec.planned|
    ensures LayerHolds(rec, t, l)
  {
    hide FirstUse, StepsAt, OutputsAt, UsedAt;
    PlacesOfCall(|rec.inputs|, l, |rec.planned|);
    var positions := |rec.inputs|;
    var ids := rec.Routed(l, positions);
    assert Done(l, positions, 0) == positions;
    assert t.selected[l] == FirstUse(rec.Routed(l, Done(l, positions, 0)));
    var final := t.finalSha256[l];
    assert rec.HasState(positions, l) && final == rec.StateBefore(positions, l).sha256;
    FirstUseFacts(ids);
    forall id ensures id in ids <==> UsedAt(rec, l, positions, id) {
      RoutedUsed(rec, l, positions, id);
    }
  }

  lemma {:induction false} TraceMeans(rec: Recording, t: Trace)
    requires IsTrace(rec, t) && rec.InputsOk()
    ensures |t.steps| == |rec.inputs| * |rec.planned|
    ensures forall i: nat, l: nat | i < |rec.inputs| && l < |rec.planned| :: StepHolds(rec, t, i, l)
    ensures forall i: nat | i < |rec.inputs| :: OutputHolds(rec, t, i)
    ensures forall l: nat | l < |rec.planned| :: LayerHolds(rec, t, l)
    ensures forall i :: 0 <= i < |rec.inputs| ==> |rec.inputs[i].hidden| == |rec.inputs[i].block| > 0
  {
    assert |rec.initial| == |rec.planned|;
    TraceSizes(rec, t);
    hide IsTrace, StepHolds, OutputHolds, LayerHolds, ValidDigest;
    forall i: nat, l: nat | i < |rec.inputs| && l < |rec.planned| ensures StepHolds(rec, t, i, l) {
      StepMeans(rec, t, i, l);
    }
    forall i: nat | i < |rec.inputs| ensures OutputHolds(rec, t, i) {
      OutputMeans(rec, t, i);
    }
    forall l: nat | l < |rec.planned| ensures LayerHolds(rec, t, l) {
      LayerMeans(rec, t, l);
    }
  }

  /** Replay a log.  It succeeds exactly when the inputs are in order and the log holds
      a valid execution for every call; it reads one entry per call and no more. */
  method DeriveTrace(rec: Recording) returns (r: Result<Trace>, consumed: nat)
    ensures r.Ok? <==> rec.InputsOk() && ValidBefore(rec, |rec.inputs|, 0)
    ensures r.Ok? ==> IsTrace(rec, r.value) && consumed == |rec.inputs| * |rec.planned| == |r.value.steps|
    ensures r.Ok? ==> forall i: nat, l: nat | i < |rec.inputs| && l < |rec.planned| :: StepHolds(rec, r.value, i, l)
    ensures r.Ok? ==> forall i: nat | i < |rec.inputs| :: OutputHolds(rec, r.value, i)
    ensures r.Ok? ==> forall l: nat | l < |rec.planned| :: LayerHolds(rec, r.value, l)
    ensures r.Ok? ==> forall i :: 0 <= i < |rec.inputs| ==> |rec.inputs[i].hidden| == |rec.inputs[i].block| > 0
    ensures consumed <= |rec.log|
  {
    hide Recording.InputsOk, StepsAt, KnownStates, SelectedAt, OutputsAt, ValidBefore, ValidResult, Call, FirstUse;
    hide StepHolds, OutputHolds, LayerHolds;
    hide Recording.Has;
    consumed := 0;
    if !rec.InputsOk() {
      return Err(InvalidTwoLayerTrace), 0;
    }
    var layers := rec.Layers();
    var steps, states, selected, outputs := [], rec.initial, seq(layers, _ => []), [];
    StartOfReplay(rec, selected);
    for i := 0 to |rec.inputs|
      invariant Recorded(rec, i, 0) && consumed == Call(i, 0, layers)
      invariant StepsAt(rec, steps, i, 0) && KnownStates(rec, states, i, 0)
      invariant SelectedAt(rec, selected, i, 0) && OutputsAt(rec, outputs, i)
      invariant ValidBefore(rec, i, 0)
    {
      var item := rec.inputs[i];
      var current := item;
      for l := 0 to layers
        invariant Recorded(rec, i, l) && consumed == Call(i, l, layers)
        invariant StepsAt(rec, steps, i, l) && KnownStates(rec, states, i, l)
        invariant SelectedAt(rec, selected, i, l)
        invariant ValidBefore(rec, i, l)
        invariant l > 0 ==> rec.Has(i, l - 1)
        invariant current == rec.InputAt(i, l)
      {
        StateOf(rec, states, i, l, l);
        var state := states[l];
        if consumed == |rec.log| {
          Exhausted(rec, i, l);
          return Err(ExecutorExhausted), consumed;
        }
        var result := rec.log[consumed];
        consumed := consumed + 1;
        HasNext(rec, i, l);
        if !ValidResult(result, |item.hidden|) {
          NotValid(rec, i, l);
          return Err(InvalidTwoLayerTrace), consumed;
        }
        StepsNext(rec, steps, i, l);
        KnownNext(rec, states, i, l);
        ValidNext(rec, i, l);
        steps := steps + [Stepped(rec.kernels, current, rec.planned[l], state, result)];
        states := states[l := result.state];
        assert l < |selected| && selected[l] == FirstUse(rec.Routed(l, i)) by { SelectedNext(rec, selected, i, l); }
        var chosen := Extend(selected[l], result.route.experts, rec.Routed(l, i));
        SelectedNext(rec, selected, i, l);
        selected := selected[l := chosen];
        current := Advance(rec.kernels, item, result.output);
      }
      EndOfRow(rec, steps, states, selected, outputs, i);
      outputs := outputs + [current.hidden];
    }
    EndOfReplay(rec, states);
    var t := Trace(steps, selected, Digests(rec.initial), Digests(states), outputs);
    TraceMeans(rec, t);
    return Ok(t), consumed;
  }

  lemma {:induction false} EndOfReplay(rec: Recording, states: seq<State>)
    requires KnownStates(rec, states, |rec.inputs|, 0)
    ensures FinalAt(rec, Digests(states))
    ensures Call(|rec.inputs|, 0, rec.Layers()) == |rec.inputs| * |rec.planned|
  {
    forall m: nat | m < |states|
      ensures rec.HasState(|rec.inputs|, m) && states[m] == rec.StateBefore(|rec.inputs|, m)
    {
      StateOf(rec, states, |rec.inputs|, 0, m);
    }
  }

  /** Append the ids that are not there yet. */
  method Extend(chosen: seq<int>, ids: seq<int>, ghost before: seq<int>) returns (r: seq<int>)
    requires chosen == FirstUse(before)
    ensures r == FirstUse(before + ids)
  {
    hide FirstUse;
    r := chosen;
    assert before + ids[..0] == before;
    for i := 0 to |ids|
      invariant r == FirstUse(before + ids[..i])
    {
      assert before + ids[..i + 1] == (before + ids[..i]) + [ids[i]];
      FirstUseStep(before + ids[..i], ids[i]);
      if ids[i] !in r {
        r := r + [ids[i]];
      }
    }
    assert ids[..|ids|] == ids;
  }

  // -------------------------------------------------- the run and its replay

  /** The recording a run leaves. */
  function Recorder(job: Job, order: Order, planned: seq<int>, log: seq<Execution>): Recording {
    Recording(job.kernels, order, planned, job.inputs, job.initial, log)
  }

  /** The recording of a run has, call by call, the states, inputs and results of the dataflow. */
  lemma {:induction false} ReplayIsDataflow(job: Job, rec: Recording, i: nat, l: nat)
    requires rec == Recorder(job, rec.order, rec.planned, rec.log) && |rec.planned| == |job.initial|
    requires LogAt(job, rec.log, |job.inputs|, 0) && i < |job.inputs| && l < |job.initial|
    ensures rec.Known(i, l) && rec.Has(i, l) && rec.At(i, l) == job.Exec(i, l)
    ensures rec.InputAt(i, l) == job.InputAt(i, l) && rec.StateBefore(i, l) == job.StateBefore(i, l)
  {
    hide Call, Job.Exec;
    var layers := |job.initial|;
    assert Before(i, l, |job.inputs|, 0, layers);
    if i > 0 {
      assert Before(i - 1, l, |job.inputs|, 0, layers);
    }
    if l > 0 {
      assert Before(i, l - 1, |job.inputs|, 0, layers);
    }
  }

  lemma {:induction false} ReplayRoutes(job: Job, rec: Recording, l: nat, n: nat)
    requires rec == Recorder(job, rec.order, rec.planned, rec.log) && |rec.planned| == |job.initial|
    requires LogAt(job, rec.log, |job.inputs|, 0) && n <= |job.inputs| && l < |job.initial|
    ensures rec.Routed(l, n) == job.Routed(l, n)
  {
    hide Call, Job.Exec, Recording.Has, Recording.At, LogAt;
    if n > 0 {
      ReplayRoutes(job, rec, l, n - 1);
      ReplayIsDataflow(job, rec, n - 1, l);
    }
  }

  /** Every result of the dataflow passes the checks of the replay. */
  ghost predicate ResultsValid(job: Job) {
    forall i: nat, l: nat | i < |job.inputs| && l < |job.initial| ::
      ValidResult(job.Exec(i, l), |job.inputs[i].hidden|)
  }

  lemma {:induction false} ReplayValid(job: Job, rec: Recording)
    requires rec == Recorder(job, rec.order, rec.planned, rec.log) && |rec.planned| == |job.initial|
    requires LogAt(job, rec.log, |job.inputs|, 0)
    ensures ValidBefore(rec, |rec.inputs|, 0) <==> ResultsValid(job)
  {
    hide Call, Job.Exec, Recording.Has, Recording.At, LogAt, ValidResult, Recording.Known;
    forall i: nat, l: nat | i < |job.inputs| && l < |job.initial|
      ensures Before(i, l, |job.inputs|, 0, |job.initial|) && rec.Has(i, l) && rec.At(i, l) == job.Exec(i, l)
    {
      ReplayIsDataflow(job, rec, i, l);
    }
    var positions: nat := |rec.inputs|;
    assert ValidBefore(rec, positions, 0) <==> ResultsValid(job);
  }

  /** The trace of a job: what the dataflow says, call by call. */
  ghost predicate TraceOf(job: Job, planned: seq<int>, t: Trace)
    requires |planned| == |job.initial|
  {
    && |t.steps| == |job.inputs| * |job.initial|
    && (forall i: nat, l: nat | i < |job.inputs| && l < |job.initial| ::
          && Call(i, l, |job.initial|) < |t.steps|
          && t.steps[Call(i, l, |job.initial|)] ==
             Stepped(job.kernels, job.InputAt(i, l), planned[l], job.StateBefore(i, l), job.Exec(i, l)))
    && t.initialSha256 == Digests(job.initial)
    && |t.finalSha256| == |job.initial|
    && (forall l: nat | l < |job.initial| :: t.finalSha256[l] == job.StateBefore(|job.inputs|, l).sha256)
    && |t.outputs| == |job.inputs|
    && (forall i: nat | i < |job.inputs| :: t.outputs[i] == job.InputAt(i, |job.initial|).hidden)
    && |t.selected| == |job.initial|
    && forall l: nat | l < |job.initial| :: t.selected[l] == FirstUse(job.Routed(l, |job.inputs|))
  }

  lemma {:induction false} ReplaySteps(job: Job, rec: Recording, steps: seq<TraceStep>, i: nat, l: nat)
    requires rec == Recorder(job, rec.order, rec.planned, rec.log) && |rec.planned| == |job.initial|
    requires LogAt(job, rec.log, |job.inputs|, 0) && StepsAt(rec, steps, |job.inputs|, 0)
    requires i < |job.inputs| && l < |job.initial|
    ensures Call(i, l, |job.initial|) < |steps|
    ensures steps[Call(i, l, |job.initial|)] ==
            Stepped(job.kernels, job.InputAt(i, l), rec.planned[l], job.StateBefore(i, l), job.Exec(i, l))
  {
    hide Call, Job.Exec, Recording.Has, Recording.At, LogAt, Stepped, Recording.InputAt, Recording.StateBefore;
    ReplayIsDataflow(job, rec, i, l);
    assert Before(i, l, |job.inputs|, 0, |job.initial|);
  }

  lemma {:induction false} ReplayOutput(job: Job, rec: Recording, outputs: seq<Vector>, i: nat)
    requires rec == Recorder(job, rec.order, rec.planned, rec.log) && |rec.planned| == |job.initial|
    requires LogAt(job, rec.log, |job.inputs|, 0) && OutputsAt(rec, outputs, |job.inputs|) && i < |job.inputs|
    ensures outputs[i] == job.InputAt(i, |job.initial|).hidden
  {
    hide Call, Job.Exec, Recording.Has, Recording.At, LogAt;
    if |job.initial| > 0 {
      ReplayIsDataflow(job, rec, i, |job.initial| - 1);
    }
  }

  lemma {:induction false} ReplayFinal(job: Job, rec: Recording, states: seq<State>, digests: seq<Digest>, l: nat)
    requires rec == Recorder(job, rec.order, rec.planned, rec.log) && |rec.planned| == |job.initial|
    requires LogAt(job, rec.log, |job.inputs|, 0) && StatesAt(job, states, |job.inputs|, 0)
    requires FinalAt(rec, digests) && l < |job.initial|
    ensures l < |states| && l < |digests| && digests[l] == job.StateBefore(|job.inputs|, l).sha256 == states[l].sha256
  {
    hide Call, Job.Exec, Recording.Has, Recording.At, LogAt;
    if |job.inputs| > 0 {
      ReplayIsDataflow(job, rec, |job.inputs| - 1, l);
    }
  }

  lemma {:induction false} ReplayTrace(job: Job, rec: Recording, states: seq<State>, t: Trace)
    requires rec == Recorder(job, rec.order, rec.planned, rec.log) && |rec.planned| == |job.initial|
    requires LogAt(job, rec.log, |job.inputs|, 0) && StatesAt(job, states, |job.inputs|, 0) && IsTrace(rec, t)
    ensures TraceOf(job, rec.planned, t) && t.finalSha256 == Digests(states)
  {
    hide Call, Job.Exec, Recording.Has, Recording.At, LogAt, FirstUse, Stepped, StepsAt, OutputsAt;
    assert |t.steps| == |job.inputs| * |job.initial| && |t.outputs| == |job.inputs| by { TraceSizes(rec, t); }
    forall i: nat, l: nat | i < |job.inputs| && l < |job.initial|
      ensures Call(i, l, |job.initial|) < |t.steps|
      ensures t.steps[Call(i, l, |job.initial|)] ==
              Stepped(job.kernels, job.InputAt(i, l), rec.planned[l], job.StateBefore(i, l), job.Exec(i, l))
    {
      ReplaySteps(job, rec, t.steps, i, l);
    }
    forall i: nat | i < |job.inputs| ensures t.outputs[i] == job.InputAt(i, |job.initial|).hidden {
      ReplayOutput(job, rec, t.outputs, i);
    }
    forall l: nat | l < |job.initial|
      ensures t.finalSha256[l] == job.StateBefore(|job.inputs|, l).sha256 == states[l].sha256
      ensures t.selected[l] == FirstUse(job.Routed(l, |job.inputs|))
    {
      ReplayFinal(job, rec, states, t.finalSha256, l);
      ReplayRoutes(job, rec, l, |job.inputs|);
    }
  }

  lemma TraceSizes(rec: Recording, t: Trace)
    requires IsTrace(rec, t)
    ensures |t.steps| == |rec.inputs| * rec.Layers() && |t.outputs| == |rec.inputs|
  {
  }

  datatype Materialized = Materialized(run: Run, trace: Trace)

  /** The manufacturing run and its replay.  The replay consumes every execution of the
      run, so the check for left-over executions never fires; and the experts it selects
      are, in order, those the run planned and fetched. */
  method Materialize(job: Job, order: Order, planned: seq<int>) returns (r: Result<Materialized>)
    requires |job.initial| == |planned|
    ensures r.Ok? <==> AllServable(job, |job.inputs|, 0) && ResultsValid(job) &&
                       InOrder(job.kernels, order, planned, job.inputs, job.initial)
    ensures r.Ok? ==> TraceOf(job, planned, r.value.trace)
    ensures r.Ok? ==> forall i: nat, l: nat | i < |job.inputs| && l < |job.initial| ::
      && CallHolds(job, r.value.run.executions, i, l)
      && StepHolds(Recorder(job, order, planned, r.value.run.executions), r.value.trace, i, l)
    ensures r.Ok? ==> LogAt(job, r.value.run.executions, |job.inputs|, 0)
    ensures r.Ok? ==> r.value.trace.selected == r.value.run.plans
    ensures r.Ok? ==> r.value.trace.finalSha256 == Digests(r.value.run.states)
    ensures r.Ok? ==> FetchedOnce(r.value.run.fetched, r.value.trace.selected)
  {
    hide AllServable, ResultsValid, InOrder, TraceOf, LogAt, StatesAt, FetchedOnce, FirstUse, Call, Job.Exec;
    hide CallHolds, StepHolds, OutputHolds, LayerHolds, IsTrace;
    var run :- Manufacture(job);
    var rec := Recorder(job, order, planned, run.executions);
    var derived, consumed := DeriveTrace(rec);
    ReplayValid(job, rec);
    if derived.Err? {
      return Err(derived.error);
    }
    var trace := derived.value;
    ReplayTrace(job, rec, run.states, trace);
    assert consumed == |run.executions| by { LogSize(job, run.executions); }
    assert trace.selected == run.plans by { SamePlans(job, planned, trace, run.plans); }
    return Ok(Materialized(run, trace));
  }

  lemma LogSize(job: Job, log: seq<Execution>)
    requires LogAt(job, log, |job.inputs|, 0)
    ensures |log| == |job.inputs| * |job.initial|
  {
  }

  lemma {:induction false} SamePlans(job: Job, planned: seq<int>, t: Trace, plans: seq<seq<int>>)
    requires |planned| == |job.initial| && TraceOf(job, planned, t) && PlansAt(job, plans, |job.inputs|, 0)
    ensures t.selected == plans
  {
    hide Call, Job.Exec, FirstUse, Stepped;
  }
}
