// The out-of-core manufacturing schedule: positions outside, layers inside, one
// recurrent state per layer, experts fetched on first use, and a replay of the
// recorded executions that derives the trace
// (converter/k3x_converter/official_two_layer.py).
//
// The schedule is proved for any number of positions and layers.  Numeric
// kernels are arbitrary deterministic functions, and accumulation order is kept.

module TwoLayer {
  import opened Wrappers

  type Vector = seq<real>
  type Digest = string
  type ExpertBytes = Bytes

  datatype Route = Route(experts: seq<int>, contributions: seq<real>)

  datatype State = State(value: Bytes, sha256: Digest)

  datatype LayerInput = LayerInput(
    name: string, hidden: Vector, block: Vector, hiddenSha256: Digest, blockSha256: Digest)

  /** What a step knows before its experts are needed. */
  datatype Prepared = Prepared(
    layerId: int, residual: Bytes, latent: Vector, state: State, kdaSha256: Digest, route: Route)

  datatype Execution = Execution(output: Vector, state: State, kdaSha256: Digest, route: Route)

  datatype Expert = Expert(id: int, weights: ExpertBytes)

  datatype Kernels = Kernels(
    prepare: (nat, LayerInput, State) -> Prepared,
    zero: Vector -> Vector,
    forward: (Vector, ExpertBytes) -> Vector,
    accumulate: (Vector, real, Vector) -> Vector,
    close: (Prepared, Vector) -> Vector,
    floatDigest: Vector -> Digest,
    contributionDigest: Route -> Digest)

  const EXPERTS := 896

  // ------------------------------------------------------ finishing a step

  /** The mixture of the first `n` routed experts, in route order. */
  function Mixed(k: Kernels, p: Prepared, bank: int -> ExpertBytes, n: nat): Vector
    requires n <= |p.route.experts| && n <= |p.route.contributions|
  {
    if n == 0 then k.zero(p.latent) else
      k.accumulate(Mixed(k, p, bank, n - 1), p.route.contributions[n - 1],
                   k.forward(p.latent, bank(p.route.experts[n - 1])))
  }

  /** The step with every expert of the layer at hand. */
  function Finish(k: Kernels, p: Prepared, bank: int -> ExpertBytes): Execution {
    var n := Min(|p.route.experts|, |p.route.contributions|);
    Execution(k.close(p, Mixed(k, p, bank, n)), p.state, p.kdaSha256, p.route)
  }

  function Sum(xs: seq<real>): real {
    if xs == [] then 0.0 else Sum(xs[..|xs| - 1]) + xs[|xs| - 1]
  }

  /** Sums of parts add up, and a single number is its own sum. */
  lemma {:induction false} SumOfParts(xs: seq<real>, ys: seq<real>)
    ensures Sum(xs + ys) == Sum(xs) + Sum(ys)
    ensures |xs| == 1 ==> Sum(xs) == xs[0]
  {
    if |xs| == 1 {
      assert Sum(xs[..0]) == 0.0;
    }
    if ys == [] {
      assert xs + ys == xs;
    } else {
      SumOfParts(xs, ys[..|ys| - 1]);
      assert (xs + ys)[..|xs + ys| - 1] == xs + ys[..|ys| - 1];
    }
  }

  /** An empty route mixes nothing; an expert appended to a route adds its own answer,
      under its own contribution, last. */
  lemma {:induction false} MixtureOfLongerRoute(k: Kernels, p: Prepared, bank: int -> ExpertBytes, e: int, c: real)
    requires |p.route.experts| == |p.route.contributions|
    ensures Mixed(k, p, bank, 0) == k.zero(p.latent)
    ensures var n, longer := |p.route.experts|, p.(route := Route(p.route.experts + [e], p.route.contributions + [c]));
            Mixed(k, longer, bank, n + 1) ==
            k.accumulate(Mixed(k, p, bank, n), c, k.forward(p.latent, bank(e)))
  {
    var n, longer := |p.route.experts|, p.(route := Route(p.route.experts + [e], p.route.contributions + [c]));
    SamePrefix(k, p, longer, bank, n);
  }

  lemma {:induction false} SamePrefix(k: Kernels, p: Prepared, q: Prepared, bank: int -> ExpertBytes, n: nat)
    requires n <= |p.route.experts| && n <= |p.route.contributions| && p.latent == q.latent
    requires p.route.experts <= q.route.experts && p.route.contributions <= q.route.contributions
    ensures Mixed(k, p, bank, n) == Mixed(k, q, bank, n)
  {
    if n > 0 {
      SamePrefix(k, p, q, bank, n - 1);
    }
  }

  /** Kernels that add weighted answers entry by entry. */
  ghost predicate Additive(k: Kernels, width: nat) {
    && (forall v :: k.zero(v) == seq(width, _ => 0.0))
    && (forall v, w :: |k.forward(v, w)| == width)
    && forall m, c, x :: |m| == |x| == width ==>
         |k.accumulate(m, c, x)| == width && forall j :: 0 <= j < width ==> k.accumulate(m, c, x)[j] == m[j] + c * x[j]
  }

  /** Expert `i` of the route enters entry `j` under contribution `i`. */
  ghost function Terms(k: Kernels, p: Prepared, bank: int -> ExpertBytes, n: nat, width: nat, j: nat): seq<real>
    requires n <= |p.route.experts| && n <= |p.route.contributions| && Additive(k, width) && j < width
  {
    seq(n, i requires 0 <= i < n =>
      p.route.contributions[i] * k.forward(p.latent, bank(p.route.experts[i]))[j])
  }

  /** With such kernels the mixture is the weighted sum of the experts' answers. */
  lemma {:induction false} MixtureIsWeightedSum(k: Kernels, p: Prepared, bank: int -> ExpertBytes, n: nat, width: nat)
    requires n <= |p.route.experts| && n <= |p.route.contributions| && Additive(k, width)
    ensures |Mixed(k, p, bank, n)| == width
    ensures forall j :: 0 <= j < width ==> Mixed(k, p, bank, n)[j] == Sum(Terms(k, p, bank, n, width, j))
  {
    if n > 0 {
      MixtureIsWeightedSum(k, p, bank, n - 1, width);
      var m, c, x := Mixed(k, p, bank, n - 1), p.route.contributions[n - 1], k.forward(p.latent, bank(p.route.experts[n - 1]));
      assert |m| == |x| == width;
      forall j | 0 <= j < width ensures Mixed(k, p, bank, n)[j] == Sum(Terms(k, p, bank, n, width, j)) {
        var ts := Terms(k, p, bank, n, width, j);
        assert ts[..n - 1] == Terms(k, p, bank, n - 1, width, j);
        assert Mixed(k, p, bank, n) == k.accumulate(m, c, x);
      }
    }
  }

  /** Only the routed experts matter. */
  lemma {:induction false} MixedIgnoresOthers(k: Kernels, p: Prepared, a: int -> ExpertBytes, b: int -> ExpertBytes, n: nat)
    requires n <= |p.route.experts| && n <= |p.route.contributions|
    requires forall id :: id in p.route.experts ==> a(id) == b(id)
    ensures Mixed(k, p, a, n) == Mixed(k, p, b, n)
  {
    if n > 0 {
      MixedIgnoresOthers(k, p, a, b, n - 1);
      assert p.route.experts[n - 1] in p.route.experts;
    }
  }

  lemma {:induction false} FinishIgnoresOthers(k: Kernels, p: Prepared, a: int -> ExpertBytes, b: int -> ExpertBytes)
    requires forall id :: id in p.route.experts ==> a(id) == b(id)
    ensures Finish(k, p, a) == Finish(k, p, b)
  {
    MixedIgnoresOthers(k, p, a, b, Min(|p.route.experts|, |p.route.contributions|));
  }

  /** The loaded experts are usable for a step: of its layer, distinct, valid, and enough. */
  ghost predicate Serves(p: Prepared, layerId: int, experts: seq<Expert>) {
    && p.layerId == layerId
    && (forall i, j :: 0 <= i < j < |experts| ==> experts[i].id != experts[j].id)
    && (forall i :: 0 <= i < |experts| ==> 0 <= experts[i].id < EXPERTS)
    && forall id :: id in p.route.experts ==> exists i :: 0 <= i < |experts| && experts[i].id == id
  }

  /** `finish_official_source_step`: accumulate the routed experts out of whatever
      set was loaded.  The result is that of the full bank. */
  method FinishStep(k: Kernels, p: Prepared, layerId: int, experts: seq<Expert>, ghost bank: int -> ExpertBytes)
    returns (r: Result<Execution>)
    requires forall i :: 0 <= i < |experts| ==> bank(experts[i].id) == experts[i].weights
    ensures r.Ok? <==> Serves(p, layerId, experts)
    ensures r.Ok? ==> r.value == Finish(k, p, bank)
    ensures r.Ok? ==>
      && r.value.state == p.state && r.value.kdaSha256 == p.kdaSha256 && r.value.route == p.route
      && r.value.output == k.close(p, Mixed(k, p, bank, Min(|p.route.experts|, |p.route.contributions|)))
  {
    if p.layerId != layerId {
      return Err(InvalidTwoLayerSource);
    }
    var byId: map<int, ExpertBytes> := map[];
    for i := 0 to |experts|
      invariant forall id :: id in byId <==> exists j :: 0 <= j < i && experts[j].id == id
      invariant forall id :: id in byId ==> byId[id] == bank(id)
      invariant forall j, l :: 0 <= j < l < i ==> experts[j].id != experts[l].id
    {
      // len(expert_by_id) != len(experts)
      if experts[i].id in byId {
        ghost var j :| 0 <= j < i && experts[j].id == experts[i].id;
        assert !(forall a, b :: 0 <= a < b < |experts| ==> experts[a].id != experts[b].id);
        return Err(InvalidTwoLayerSource);
      }
      byId := byId[experts[i].id := experts[i].weights];
    }
    if exists i :: 0 <= i < |experts| && !(0 <= experts[i].id < EXPERTS) {
      return Err(InvalidTwoLayerSource);
    }
    if exists i :: 0 <= i < |p.route.experts| && p.route.experts[i] !in byId {
      ghost var i :| 0 <= i < |p.route.experts| && p.route.experts[i] !in byId;
      ghost var id := p.route.experts[i];
      assert id in p.route.experts;
      assert !(exists j :: 0 <= j < |experts| && experts[j].id == id);
      return Err(InvalidTwoLayerSource);
    }
    assert forall i :: 0 <= i < |p.route.experts| ==> p.route.experts[i] in byId;
    var mixed := k.zero(p.latent);
    var n := Min(|p.route.experts|, |p.route.contributions|);
    for i := 0 to n
      invariant mixed == Mixed(k, p, bank, i)
    {
      var id := p.route.experts[i];
      mixed := k.accumulate(mixed, p.route.contributions[i], k.forward(p.latent, byId[id]));
    }
    return Ok(Execution(k.close(p, mixed), p.state, p.kdaSha256, p.route));
  }

  // ------------------------------------------------------ first-use unions

  /** `dict.fromkeys`: each id once, in order of first use. */
  function FirstUse(ids: seq<int>): seq<int> {
    if ids == [] then [] else
      var u, id := FirstUse(ids[..|ids| - 1]), ids[|ids| - 1];
      if id in u then u else u + [id]
  }

  lemma {:induction false} FirstUseStep(ids: seq<int>, id: int)
    ensures FirstUse(ids + [id]) == if id in FirstUse(ids) then FirstUse(ids) else FirstUse(ids) + [id]
  {
    assert (ids + [id])[..|ids|] == ids;
  }

  lemma {:induction false} FirstUseFacts(ids: seq<int>)
    ensures forall id :: id in FirstUse(ids) <==> id in ids
    ensures forall i, j :: 0 <= i < j < |FirstUse(ids)| ==> FirstUse(ids)[i] != FirstUse(ids)[j]
  {
    if ids != [] {
      FirstUseFacts(ids[..|ids| - 1]);
      assert ids == ids[..|ids| - 1] + [ids[|ids| - 1]];
    }
  }

  /** Ids stand in the order of their first use. */
  lemma {:induction false} FirstUseOrder(ids: seq<int>, i: nat, j: nat)
    requires i < j < |FirstUse(ids)|
    ensures exists a: nat :: a < |ids| && ids[a] == FirstUse(ids)[i] && FirstUse(ids)[j] !in ids[..a]
  {
    var init, id := ids[..|ids| - 1], ids[|ids| - 1];
    FirstUseFacts(init);
    assert ids == init + [id];
    if j < |FirstUse(init)| {
      FirstUseOrder(init, i, j);
      var a: nat :| a < |init| && init[a] == FirstUse(init)[i] && FirstUse(init)[j] !in init[..a];
      assert ids[..a] == init[..a] && ids[a] == init[a];
    } else {
      assert FirstUse(init)[i] in FirstUse(init);
      var a: nat :| a < |init| && init[a] == FirstUse(init)[i];
      assert ids[..a] == init[..a] && ids[a] == init[a];
      assert id !in init;
    }
  }

  /** What a longer list adds to the union. */
  lemma {:induction false} FirstUseGrows(a: seq<int>, b: seq<int>)
    ensures FirstUse(a) <= FirstUse(a + b)
  {
    if b == [] {
      assert a + b == a;
    } else {
      var init, id := b[..|b| - 1], b[|b| - 1];
      FirstUseGrows(a, init);
      FirstUseStep(a + init, id);
      assert a + b == (a + init) + [id];
    }
  }

  // -------------------------------------------------------- the dataflow

  /** The next layer's input at the same position. */
  function Advance(k: Kernels, item: LayerInput, output: Vector): LayerInput {
    LayerInput(item.name, output, item.block, k.floatDigest(output), item.blockSha256)
  }

  /** A job: the kernels, one input per position, one state per layer, and the
      experts that can be planned and fetched. */
  datatype Job = Job(
    kernels: Kernels, inputs: seq<LayerInput>, initial: seq<State>, fetch: (nat, int) -> Option<ExpertBytes>)
  {
    /** All experts of a layer, preloaded. */
    function Bank(layer: nat): int -> ExpertBytes {
      id => if fetch(layer, id).Some? then fetch(layer, id).value else []
    }

    function StateBefore(i: nat, l: nat): State
      requires i <= |inputs| && l < |initial|
      decreases i, l, 0
    {
      if i == 0 then initial[l] else Exec(i - 1, l).state
    }

    function InputAt(i: nat, l: nat): LayerInput
      requires i < |inputs| && l <= |initial|
      decreases i, l, 0
    {
      if l == 0 then inputs[i] else Advance(kernels, inputs[i], Exec(i, l - 1).output)
    }

    /** The layer number comes from the plan. */
    function Prepare(l: nat, item: LayerInput, state: State): Prepared {
      kernels.prepare(l, item, state).(layerId := l + 1)
    }

    /** exec(l, Out(i, l - 1), State(i - 1, l)), every expert at hand. */
    function Exec(i: nat, l: nat): Execution
      requires i < |inputs| && l < |initial|
      decreases i, l, 1
    {
      Finish(kernels, Prepare(l, InputAt(i, l), StateBefore(i, l)), Bank(l))
    }

    /** The ids routed at layer `l` by the first `n` positions, in order. */
    function Routed(l: nat, n: nat): seq<int>
      requires l < |initial| && n <= |inputs|
    {
      if n == 0 then [] else Routed(l, n - 1) + Exec(n - 1, l).route.experts
    }

    ghost predicate Servable(i: nat, l: nat)
      requires i < |inputs| && l < |initial|
    {
      forall id :: id in Exec(i, l).route.experts ==> 0 <= id < EXPERTS && fetch(l, id).Some?
    }
  }

  // ------------------------------------------------------------ call order

  /** The number of calls before position `i`, layer `l`. */
  function Call(i: nat, l: nat, layers: nat): nat {
    i * layers + l
  }

  /** Call (j, m) comes before (i, l): an earlier position, or an earlier layer of the same one. */
  predicate Before(j: nat, m: nat, i: nat, l: nat, layers: nat) {
    m < layers && (j < i || (j == i && m < l))
  }

  lemma {:induction false} CallOrder(i: nat, l: nat, positions: nat, layers: nat)
    requires i < positions && l < layers
    ensures Call(i, l, layers) < positions * layers
    ensures Call(i, l + 1, layers) == Call(i, l, layers) + 1
    ensures Call(i, layers, layers) == Call(i + 1, 0, layers)
  {
    assert (i + 1) * layers == i * layers + layers;
    var d := positions - (i + 1);
    assert positions * layers == (i + 1) * layers + d * layers && d * layers >= 0;
  }

  lemma {:induction false} CallInjective(i: nat, l: nat, j: nat, m: nat, layers: nat)
    requires l < layers && Before(j, m, i, l, layers)
    ensures Call(j, m, layers) < Call(i, l, layers)
  {
    if j < i {
      CallOrder(j, m, i, layers);
      assert Call(j, m, layers) < i * layers;
    }
  }

  // --------------------------------------------------------- manufacturing

  /** What a run leaves behind: the executions in call order, the final states,
      the expert plans of each layer in insertion order, and every range fetched. */
  datatype Run = Run(executions: seq<Execution>, states: seq<State>, plans: seq<seq<int>>, fetched: seq<(nat, int)>)

  /** The fetches made so far: each planned expert of each layer exactly once. */
  ghost predicate FetchedOnce(fetched: seq<(nat, int)>, plans: seq<seq<int>>) {
    && (forall i, j :: 0 <= i < j < |fetched| ==> fetched[i] != fetched[j])
    && (forall i :: 0 <= i < |fetched| ==> fetched[i].0 < |plans| && fetched[i].1 in plans[fetched[i].0])
    && forall l: nat, id :: l < |plans| && id in plans[l] ==> (l, id) in fetched
  }

  /** The expert plans after the calls before (i, l): the union of the routes so far. */
  ghost predicate PlansAt(job: Job, plans: seq<seq<int>>, i: nat, l: nat)
    requires i <= |job.inputs| && l <= |job.initial| && (l > 0 ==> i < |job.inputs|)
  {
    && |plans| == |job.initial|
    && forall m :: 0 <= m < |plans| ==> plans[m] == FirstUse(job.Routed(m, if m < l then i + 1 else i))
  }

  /** Plan and fetch the routed experts that are not planned yet. */
  method FetchMissing(job: Job, layer: nat, route: seq<int>, plans: seq<seq<int>>, fetched: seq<(nat, int)>,
                      ghost before: seq<int>)
    returns (r: Result<(seq<seq<int>>, seq<(nat, int)>)>)
    requires layer < |plans| && plans[layer] == FirstUse(before) && FetchedOnce(fetched, plans)
    requires forall id :: id in before ==> job.fetch(layer, id).Some?
    ensures r.Ok? <==> forall id :: id in route ==> job.fetch(layer, id).Some?
    ensures r.Ok? ==> r.value.0 == plans[layer := FirstUse(before + route)] && FetchedOnce(r.value.1, r.value.0)
  {
    hide FetchedOnce, FirstUse;
    var plans', fetched' := plans, fetched;
    assert before + route[..0] == before;
    for i := 0 to |route|
      invariant plans' == plans[layer := FirstUse(before + route[..i])]
      invariant FetchedOnce(fetched', plans')
      invariant forall k :: 0 <= k < i ==> job.fetch(layer, route[k]).Some?
    {
      var id := route[i];
      assert before + route[..i + 1] == (before + route[..i]) + [id];
      FirstUseStep(before + route[..i], id);
      if id in plans'[layer] {
        FirstUseFacts(before + route[..i]);
        assert id in before + route[..i];
        continue;
      }
      if job.fetch(layer, id).None? {
        return Err(InvalidOfficialExpert);
      }
      FetchedNext(fetched', plans', layer, id);
      fetched' := fetched' + [(layer, id)];
      plans' := plans'[layer := plans'[layer] + [id]];
    }
    assert route[..|route|] == route;
    return Ok((plans', fetched'));
  }

  lemma {:induction false} FetchedNext(fetched: seq<(nat, int)>, plans: seq<seq<int>>, layer: nat, id: int)
    requires layer < |plans| && id !in plans[layer] && FetchedOnce(fetched, plans)
    ensures FetchedOnce(fetched + [(layer, id)], plans[layer := plans[layer] + [id]])
  {
    var fetched', plans' := fetched + [(layer, id)], plans[layer := plans[layer] + [id]];
    forall l: nat, x | l < |plans'| && x in plans'[l] ensures (l, x) in fetched' {
      if l == layer && x == id {
        assert fetched'[|fetched|] == (layer, id);
      } else {
        assert x in plans[l];
        assert (l, x) in fetched;
      }
    }
  }

  /** The experts of a layer loaded so far. */
  function Loaded(job: Job, layer: nat, ids: seq<int>): (r: seq<Expert>)
    ensures |r| == |ids| && forall i :: 0 <= i < |ids| ==> r[i] == Expert(ids[i], job.Bank(layer)(ids[i]))
  {
    seq(|ids|, i requires 0 <= i < |ids| => Expert(ids[i], job.Bank(layer)(ids[i])))
  }

  lemma {:induction false} PlansNext(job: Job, plans: seq<seq<int>>, i: nat, l: nat)
    requires i < |job.inputs| && l < |job.initial| && PlansAt(job, plans, i, l)
    ensures PlansAt(job, plans[l := FirstUse(job.Routed(l, i) + job.Exec(i, l).route.experts)], i, l + 1)
  {
    hide FirstUse, Job.Exec;
  }

  /** The experts loaded for a step serve it exactly when its route is servable. */
  lemma {:induction false} LoadedServe(job: Job, i: nat, l: nat, ids: seq<int>)
    requires i < |job.inputs| && l < |job.initial|
    requires ids == FirstUse(job.Routed(l, i) + job.Exec(i, l).route.experts)
    requires forall j :: 0 <= j < i ==> job.Servable(j, l)
    requires forall id :: id in job.Exec(i, l).route.experts ==> job.fetch(l, id).Some?
    ensures var p := job.Prepare(l, job.InputAt(i, l), job.StateBefore(i, l));
            Serves(p, l + 1, Loaded(job, l, ids)) <==> job.Servable(i, l)
  {
    hide FirstUse, Job.StateBefore, Job.InputAt;
    var route, before, experts := job.Exec(i, l).route.experts, job.Routed(l, i), Loaded(job, l, ids);
    RoutedServable(job, l, i);
    FirstUseFacts(before + route);
    forall id | id in route ensures exists j :: 0 <= j < |experts| && experts[j].id == id {
      assert id in before + route;
      var j :| 0 <= j < |ids| && ids[j] == id;
      assert experts[j].id == id;
    }
    forall j | 0 <= j < |experts| ensures ids[j] in before || ids[j] in route {
      assert ids[j] in before + route;
    }
  }

  /** One step of the schedule: prepare, fetch what the route needs, finish with
      the experts fetched so far. */
  method Step(job: Job, i: nat, l: nat, current: LayerInput, state: State,
              plans: seq<seq<int>>, fetched: seq<(nat, int)>)
    returns (r: Result<(Execution, seq<seq<int>>, seq<(nat, int)>)>)
    requires i < |job.inputs| && l < |job.initial|
    requires current == job.InputAt(i, l) && state == job.StateBefore(i, l)
    requires PlansAt(job, plans, i, l) && FetchedOnce(fetched, plans)
    requires forall j :: 0 <= j < i ==> job.Servable(j, l)
    ensures r.Ok? <==> job.Servable(i, l)
    ensures r.Ok? ==> r.value.0 == job.Exec(i, l)
    ensures r.Ok? ==> PlansAt(job, r.value.1, i, l + 1) && FetchedOnce(r.value.2, r.value.1)
  {
    hide FetchedOnce, FirstUse, Serves, Job.StateBefore, Job.InputAt, Job.Routed;
    var k := job.kernels;
    var prepared := job.Prepare(l, current, state);
    assert job.Exec(i, l).route == prepared.route;
    RoutedServable(job, l, i);
    var missing :- FetchMissing(job, l, prepared.route.experts, plans, fetched, job.Routed(l, i));
    var (plans', fetched') := missing;
    PlansNext(job, plans, i, l);
    LoadedServe(job, i, l, plans'[l]);
    var finished := FinishStep(k, prepared, l + 1, Loaded(job, l, plans'[l]), job.Bank(l));
    if finished.Err? {
      return Err(finished.error);
    }
    return Ok((finished.value, plans', fetched'));
  }

  /** Every id routed before position `n` was valid and fetched. */
  lemma {:induction false} RoutedServable(job: Job, l: nat, n: nat)
    requires l < |job.initial| && n <= |job.inputs| && forall j :: 0 <= j < n ==> job.Servable(j, l)
    ensures forall id :: id in job.Routed(l, n) ==> 0 <= id < EXPERTS && job.fetch(l, id).Some?
  {
    if n > 0 {
      RoutedServable(job, l, n - 1);
      assert job.Servable(n - 1, l);
    }
  }

  /** The log after the calls before (i, l): one execution per call, in call order. */
  ghost predicate LogAt(job: Job, log: seq<Execution>, i: nat, l: nat)
    requires i <= |job.inputs| && l <= |job.initial| && (l > 0 ==> i < |job.inputs|)
  {
    && |log| == Call(i, l, |job.initial|)
    && forall j: nat, m: nat | Before(j, m, i, l, |job.initial|) ::
         Call(j, m, |job.initial|) < |log| && log[Call(j, m, |job.initial|)] == job.Exec(j, m)
  }

  lemma {:induction false} LogNext(job: Job, log: seq<Execution>, i: nat, l: nat)
    requires i < |job.inputs| && l < |job.initial| && LogAt(job, log, i, l)
    ensures LogAt(job, log + [job.Exec(i, l)], i, l + 1)
  {
    hide Job.Exec, Call;
    var layers, log' := |job.initial|, log + [job.Exec(i, l)];
    CallOrder(i, l, |job.inputs|, layers);
    forall j: nat, m: nat | Before(j, m, i, l + 1, layers)
      ensures Call(j, m, layers) < |log'| && log'[Call(j, m, layers)] == job.Exec(j, m)
    {
      if Before(j, m, i, l, layers) {
        assert log[Call(j, m, layers)] == job.Exec(j, m);
      }
    }
  }

  lemma {:induction false} LogRow(job: Job, log: seq<Execution>, i: nat)
    requires i < |job.inputs| && LogAt(job, log, i, |job.initial|)
    ensures LogAt(job, log, i + 1, 0)
  {
    hide Job.Exec, Call;
    var layers := |job.initial|;
    assert Call(i, layers, layers) == Call(i + 1, 0, layers) by { RowEnds(i, layers); }
    forall j: nat, m: nat | Before(j, m, i + 1, 0, layers)
      ensures Call(j, m, layers) < |log| && log[Call(j, m, layers)] == job.Exec(j, m)
    {
      assert Before(j, m, i, layers, layers);
    }
  }

  lemma {:induction false} RowEnds(i: nat, layers: nat)
    ensures Call(i, layers, layers) == Call(i + 1, 0, layers)
  {
    assert (i + 1) * layers == i * layers + layers;
  }

  /** The states between calls: a layer already executed at position `i` is one ahead. */
  ghost predicate StatesAt(job: Job, states: seq<State>, i: nat, l: nat)
    requires i <= |job.inputs| && l <= |job.initial| && (l > 0 ==> i < |job.inputs|)
  {
    && |states| == |job.initial|
    && forall m :: 0 <= m < |states| ==> states[m] == job.StateBefore(if m < l then i + 1 else i, m)
  }

  lemma {:induction false} StatesNext(job: Job, states: seq<State>, i: nat, l: nat)
    requires i < |job.inputs| && l < |job.initial| && StatesAt(job, states, i, l)
    ensures StatesAt(job, states[l := job.Exec(i, l).state], i, l + 1)
  {
    hide Job.Exec;
  }

  ghost predicate AllServable(job: Job, i: nat, l: nat)
    requires i <= |job.inputs| && l <= |job.initial| && (l > 0 ==> i < |job.inputs|)
  {
    forall j: nat, m: nat | Before(j, m, i, l, |job.initial|) :: job.Servable(j, m)
  }

  /** Entry `i * layers + l` of a log is one call: layer `l`, with the state it left one
      position earlier and what the layer below just put out, and every expert of the
      layer that can be fetched at hand. */
  ghost predicate CallHolds(job: Job, log: seq<Execution>, i: nat, l: nat)
    requires i < |job.inputs| && l < |job.initial|
  {
    var k, layers, item := job.kernels, |job.initial|, job.inputs[i];
    var n := i * layers + l;
    && n < |log| && (l > 0 ==> 0 <= n - 1) && (i > 0 ==> 0 <= n - layers)
    && var state := if i == 0 then job.initial[l] else log[n - layers].state;
       var below := if l == 0 then item else
         LayerInput(item.name, log[n - 1].output, item.block, k.floatDigest(log[n - 1].output), item.blockSha256);
       var p := k.prepare(l, below, state).(layerId := l + 1);
       && log[n].state == p.state && log[n].kdaSha256 == p.kdaSha256 && log[n].route == p.route
       && log[n].output == k.close(p, Mixed(k, p, Fetched(job, l), Min(|p.route.experts|, |p.route.contributions|)))
       && forall id :: id in p.route.experts ==> 0 <= id < 896 && job.fetch(l, id).Some?
  }

  function Fetched(job: Job, l: nat): int -> ExpertBytes {
    id => match job.fetch(l, id) case Some(weights) => weights case None => []
  }

  lemma {:induction false} LogHolds(job: Job, log: seq<Execution>, i: nat, l: nat)
    requires LogAt(job, log, |job.inputs|, 0) && AllServable(job, |job.inputs|, 0)
    requires i < |job.inputs| && l < |job.initial|
    ensures CallHolds(job, log, i, l)
  {
    hide Mixed;
    var k, layers := job.kernels, |job.initial|;
    assert Before(i, l, |job.inputs|, 0, layers);
    assert log[Call(i, l, layers)] == job.Exec(i, l) && job.Servable(i, l);
    assert (i - 1) * layers == i * layers - layers;
    if i > 0 {
      assert Before(i - 1, l, |job.inputs|, 0, layers);
      assert log[Call(i - 1, l, layers)] == job.Exec(i - 1, l);
    }
    if l > 0 {
      assert Before(i, l - 1, |job.inputs|, 0, layers);
      assert log[Call(i, l - 1, layers)] == job.Exec(i, l - 1);
    }
    var p := job.Prepare(l, job.InputAt(i, l), job.StateBefore(i, l));
    MixedIgnoresOthers(k, p, job.Bank(l), Fetched(job, l), Min(|p.route.experts|, |p.route.contributions|));
  }

  /** The whole run: positions outside, layers inside, states replaced in place and
      experts fetched on first use.  It computes the dataflow in which every expert
      of every layer is at hand from the start, and it fails exactly when the
      dataflow routes to an expert that cannot be served. */
  method Manufacture(job: Job) returns (r: Result<Run>)
    ensures r.Ok? <==> AllServable(job, |job.inputs|, 0)
    ensures r.Ok? ==> LogAt(job, r.value.executions, |job.inputs|, 0)
    ensures r.Ok? ==> forall i: nat, l: nat | i < |job.inputs| && l < |job.initial| ::
      CallHolds(job, r.value.executions, i, l)
    ensures r.Ok? ==> StatesAt(job, r.value.states, |job.inputs|, 0)
    ensures r.Ok? ==> PlansAt(job, r.value.plans, |job.inputs|, 0) && FetchedOnce(r.value.fetched, r.value.plans)
  {
    hide FetchedOnce, FirstUse, Call, CallHolds, Job.Exec, Job.Servable, Job.Routed;
    var layers := |job.initial|;
    var executions, states, plans, fetched := [], job.initial, seq(layers, _ => []), [];
    StartOfRun(job, plans);
    for i := 0 to |job.inputs|
      invariant LogAt(job, executions, i, 0) && StatesAt(job, states, i, 0)
      invariant PlansAt(job, plans, i, 0) && FetchedOnce(fetched, plans)
      invariant AllServable(job, i, 0)
    {
      var current := job.inputs[i];
      for l := 0 to layers
        invariant LogAt(job, executions, i, l) && StatesAt(job, states, i, l)
        invariant PlansAt(job, plans, i, l) && FetchedOnce(fetched, plans)
        invariant current == job.InputAt(i, l)
        invariant AllServable(job, i, l)
      {
        forall j | 0 <= j < i ensures job.Servable(j, l) {
          assert Before(j, l, i, l, layers);
        }
        var step := Step(job, i, l, current, states[l], plans, fetched);
        if step.Err? {
          assert Before(i, l, |job.inputs|, 0, layers);
          return Err(step.error);
        }
        var (result, plans', fetched') := step.value;
        LogNext(job, executions, i, l);
        StatesNext(job, states, i, l);
        executions := executions + [result];
        states := states[l := result.state];
        plans, fetched := plans', fetched';
        current := Advance(job.kernels, job.inputs[i], result.output);
      }
      LogRow(job, executions, i);
      forall j: nat, m: nat | Before(j, m, i + 1, 0, layers) ensures job.Servable(j, m) {
        assert Before(j, m, i, layers, layers);
      }
    }
    forall i: nat, l: nat | i < |job.inputs| && l < layers ensures CallHolds(job, executions, i, l) {
      LogHolds(job, executions, i, l);
    }
    return Ok(Run(executions, states, plans, fetched));
  }

  lemma {:induction false} StartOfRun(job: Job, plans: seq<seq<int>>)
    requires |plans| == |job.initial| && forall l :: 0 <= l < |plans| ==> plans[l] == []
    ensures LogAt(job, [], 0, 0) && StatesAt(job, job.initial, 0, 0)
    ensures PlansAt(job, plans, 0, 0) && FetchedOnce([], plans)
  {
    hide Job.Exec;
  }
}
