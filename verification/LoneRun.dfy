// A run that the replay accepts and the closure tool rejects: every token goes to
// one expert (converter/k3x_converter/official_two_layer.py,
// tools/ablate_official_two_layer_closure.py).

module LoneRun {
  import opened Manifest
  import opened TwoLayer
  import opened TwoLayerTrace
  import opened Wrappers

  /** A digest of zeros. */
  function Zeroes(): (d: Digest)
    ensures ValidDigest(d)
  {
    seq(64, _ => '0')
  }

  /** Kernels that route every token to expert 7 alone. */
  function LoneKernels(): Kernels {
    Kernels((l: nat, item: LayerInput, state: State) =>
              Prepared(l + 1, [], item.hidden, state, Zeroes(), Route([7], [1.0])),
            (latent: Vector) => latent, (latent: Vector, weights: ExpertBytes) => latent,
            (sum: Vector, weight: real, part: Vector) => sum, (p: Prepared, mixed: Vector) => mixed,
            (v: Vector) => Zeroes(), (route: Route) => Zeroes())
  }

  function LoneJob(): Job {
    var state := State([], Zeroes());
    Job(LoneKernels(),
        [LayerInput("a", [0.0], [0.0], Zeroes(), Zeroes()), LayerInput("b", [0.0], [0.0], Zeroes(), Zeroes())],
        [state, state], (l: nat, id: int) => Some([]))
  }

  lemma {:induction false} LoneStep(i: nat, l: nat)
    requires i < 2 && l < 2
    ensures LoneJob().InputAt(i, l) == LoneJob().inputs[i] && LoneJob().StateBefore(i, l) == LoneJob().initial[l]
    ensures LoneJob().Exec(i, l) == Execution([0.0], LoneJob().initial[l], Zeroes(), Route([7], [1.0]))
    decreases i + l
  {
    var job := LoneJob();
    if i > 0 {
      LoneStep(i - 1, l);
    }
    if l > 0 {
      LoneStep(i, l - 1);
    }
    var p := job.Prepare(l, job.InputAt(i, l), job.StateBefore(i, l));
    assert Mixed(job.kernels, p, job.Bank(l), 0) == [0.0];
    assert Mixed(job.kernels, p, job.Bank(l), 1) == [0.0];
  }

  /** The trace of that run. */
  function LoneTrace(): Trace {
    var job := LoneJob();
    var result := Execution([0.0], job.initial[0], Zeroes(), Route([7], [1.0]));
    Trace([Stepped(job.kernels, job.inputs[0], 1, job.initial[0], result),
           Stepped(job.kernels, job.inputs[0], 2, job.initial[0], result),
           Stepped(job.kernels, job.inputs[1], 1, job.initial[0], result),
           Stepped(job.kernels, job.inputs[1], 2, job.initial[0], result)],
          [FirstUse(job.Routed(0, 2)), FirstUse(job.Routed(1, 2))],
          Digests(job.initial), Digests(job.initial), [job.InputAt(0, 2).hidden, job.InputAt(1, 2).hidden])
  }

  lemma {:induction false} LoneRoute()
    ensures ValidRoute(Route([7], [1.0])) && !FullRoute(Route([7], [1.0]))
  {
    assert Sum([1.0]) == Sum([]) + 1.0 by { assert [1.0][..0] == []; }
  }

  lemma {:induction false} LoneSteps()
    ensures forall i: nat, l: nat | i < 2 && l < 2 ::
              && LoneJob().InputAt(i, l) == LoneJob().inputs[i] && LoneJob().StateBefore(i, l) == LoneJob().initial[l]
              && LoneJob().Exec(i, l) == Execution([0.0], LoneJob().initial[l], Zeroes(), Route([7], [1.0]))
              && Call(i, l, 2) == 2 * i + l
  {
    hide LoneJob, Job.Exec, Job.InputAt, Job.StateBefore, Zeroes;
    LoneSizes();
    forall i: nat, l: nat | i < 2 && l < 2
      ensures LoneJob().InputAt(i, l) == LoneJob().inputs[i] && LoneJob().StateBefore(i, l) == LoneJob().initial[l]
      ensures LoneJob().Exec(i, l) == Execution([0.0], LoneJob().initial[l], Zeroes(), Route([7], [1.0]))
      ensures Call(i, l, 2) == 2 * i + l
    {
      LoneStep(i, l);
    }
  }

  lemma LoneSizes()
    ensures |LoneJob().inputs| == |LoneJob().initial| == 2
  {
  }

  lemma {:induction false} LoneResults()
    ensures ResultsValid(LoneJob()) && !FullRoutes(LoneJob())
  {
    hide Job.Exec, ValidRoute, FullRoute;
    var job := LoneJob();
    LoneSteps();
    LoneRoute();
    assert !FullRoute(job.Exec(0, 0).route);
  }

  lemma {:induction false} LoneInputs()
    ensures var job := LoneJob();
            InOrder(job.kernels, OFFICIAL, OFFICIAL.layerIds, job.inputs, job.initial) && HexDigests(job.kernels)
  {
    hide ValidDigest, Zeroes;
  }

  lemma {:induction false} LoneTraceStep(i: nat, l: nat)
    requires i < 2 && l < 2
    ensures |LoneTrace().steps| == 4 && |LoneJob().inputs| == |LoneJob().initial| == 2
    ensures LoneTrace().steps[2 * i + l] ==
            Stepped(LoneJob().kernels, LoneJob().InputAt(i, l), OFFICIAL.layerIds[l], LoneJob().StateBefore(i, l),
                    LoneJob().Exec(i, l))
  {
    hide Job.Exec, Job.InputAt, Job.StateBefore, FirstUse, Zeroes, LoneKernels, Stepped;
    LoneStep(i, l);
    assert OFFICIAL.layerIds[l] == l + 1 && LoneJob().initial[l] == LoneJob().initial[0];
  }

  lemma {:induction false} LoneTraceRest()
    ensures |LoneJob().initial| == |LoneJob().inputs| == 2
    ensures var job, t := LoneJob(), LoneTrace();
            && t.initialSha256 == Digests(job.initial) && |t.finalSha256| == |t.outputs| == |t.selected| == 2
            && (forall l: nat | l < 2 :: t.finalSha256[l] == job.StateBefore(2, l).sha256)
            && (forall i: nat | i < 2 :: t.outputs[i] == job.InputAt(i, 2).hidden)
            && forall l: nat | l < 2 :: t.selected[l] == FirstUse(job.Routed(l, 2))
  {
    hide Job.Exec, Job.InputAt, FirstUse, Zeroes, LoneKernels, Stepped, Job.Routed;
    LoneStep(1, 0);
    LoneStep(1, 1);
  }

  /** Four steps and the totals make a two-by-two trace. */
  lemma {:induction false} FourSteps(job: Job, planned: seq<int>, t: Trace)
    requires |planned| == |job.inputs| == |job.initial| == 2 && |t.steps| == 4
    requires forall i: nat, l: nat | i < 2 && l < 2 ::
      t.steps[2 * i + l] ==
      Stepped(job.kernels, job.InputAt(i, l), planned[l], job.StateBefore(i, l), job.Exec(i, l))
    requires t.initialSha256 == Digests(job.initial) && |t.finalSha256| == |t.outputs| == |t.selected| == 2
    requires forall l: nat | l < 2 :: t.finalSha256[l] == job.StateBefore(2, l).sha256
    requires forall i: nat | i < 2 :: t.outputs[i] == job.InputAt(i, 2).hidden
    requires forall l: nat | l < 2 :: t.selected[l] == FirstUse(job.Routed(l, 2))
    ensures TraceOf(job, planned, t)
  {
    hide Job.Exec, Job.InputAt, Job.StateBefore, Job.Routed, FirstUse, Stepped;
    assert |job.inputs| * |job.initial| == 4;
    forall i: nat, l: nat | i < 2 && l < 2 ensures Call(i, l, |job.initial|) == 2 * i + l {
    }
  }

  lemma {:induction false} LoneTraceIsTrace()
    ensures |OFFICIAL.layerIds| == |LoneJob().initial| && TraceOf(LoneJob(), OFFICIAL.layerIds, LoneTrace())
  {
    hide Job.Exec, Job.InputAt, Job.StateBefore, Job.Routed, FirstUse, LoneJob, LoneTrace, Stepped, TraceOf;
    LoneTraceRest();
    LoneTraceStep(0, 0);
    var job, t := LoneJob(), LoneTrace();
    forall i: nat, l: nat | i < 2 && l < 2
      ensures t.steps[2 * i + l] ==
              Stepped(job.kernels, job.InputAt(i, l), OFFICIAL.layerIds[l], job.StateBefore(i, l), job.Exec(i, l))
    {
      LoneTraceStep(i, l);
    }
    FourSteps(job, OFFICIAL.layerIds, t);
  }

  lemma {:induction false} LoneIsTwoByTwo()
    ensures TwoByTwo(LoneJob(), LoneTrace()) && !FullRoutes(LoneJob())
  {
    hide LoneJob, LoneTrace, FullRoutes, InOrder, ResultsValid, TraceOf, HexDigests;
    LoneSizes();
    LoneInputs();
    LoneResults();
    LoneTraceIsTrace();
  }

  /** A run the replay accepts and the closure tool rejects, with every other field in order. */
  lemma {:induction false} LoneRunIsRejected(oracle: Json, artifact: Json)
    requires GoodOracle(oracle) && GoodArtifact(artifact)
    ensures GoodOfficial(Official(), Official()) && TwoByTwo(LoneJob(), LoneTrace())
    ensures !Accepted(Official(), Written(LoneTrace(), Official(), oracle, artifact))
  {
    hide TwoByTwo, GoodOracle, GoodArtifact, Accepted, Written, FullRoutes, LoneJob, LoneTrace;
    LoneIsTwoByTwo();
    forall f | f in Official() ensures Same(Official()[f], Official()[f]) {
      SameReflexive(Official()[f]);
    }
    RunIsAccepted(Official(), LoneJob(), LoneTrace(), Official(), oracle, artifact);
  }

  /** There are such records. */
  lemma {:induction false} GoodRecords()
    ensures GoodOracle(Obj(map[Format := Str("k3x-official-two-layer-oracle-v1"),
                               Filename := Str("official-two-layer-oracle-v1.bin"),
                               ByteCount := Int(ORACLE_BYTES), Sha256 := Str(Zeroes())]))
    ensures GoodArtifact(Obj(map[Filename := Str("official-two-layer.k3x"), K3xRootSha256 := Str(Zeroes()),
                                 SourceSha256 := Str(Zeroes()), TensorSha256 := Obj(map[])]))
  {
    hide ValidDigest;
  }
}
