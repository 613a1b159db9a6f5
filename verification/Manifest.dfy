// The route and state manifest of a two-layer run: how the run writes it
// (materialize_official_two_layer, converter/k3x_converter/official_two_layer.py)
// and what the closure tool accepts of it (manifest_identity,
// tools/ablate_official_two_layer_closure.py).
//
// A manifest is decoded JSON.  Field names are an enumeration, since only their
// identity matters; numbers compare as the source language compares them.

module Manifest {
  import opened TwoLayer
  import opened TwoLayerTrace
  import opened Wrappers

  datatype Field =
    | Format | Repository | ResolvedRevision | SnapshotSha256 | IndexSha256 | ConfigSha256 | SourceBlobId
    | ShardPaths | LayerIds | StepOrder
    | Steps | SelectedExperts | FinalStateSha256 | Oracle | Artifact
    | Position | LayerId | ExpertIds | Contributions
    | HiddenInputSha256 | BlockSha256 | ConsumesStateSha256 | StateSha256 | KdaOutputSha256
    | ContributionSha256 | OutputSha256
    | Filename | Sha256 | ByteCount | K3xRootSha256 | SourceSha256 | TensorSha256
    | Named(name: string)

  type Object = map<Field, Json>

  datatype Json =
    | Null
    | Bool(truth: bool)
    | Int(integer: int)
    | Float(number: real)
    | Str(text: string)
    | List(items: seq<Json>)
    | Obj(fields: map<Field, Json>)

  const TOP_K := 16
  const ORACLE_BYTES := 13053992

  const STEP_ORDER: seq<(string, int)> := [("a", 1), ("a", 2), ("b", 1), ("b", 2)]

  /** The digests of a step. */
  const DIGESTS: set<Field> :=
    {HiddenInputSha256, BlockSha256, ConsumesStateSha256, StateSha256, KdaOutputSha256,
     ContributionSha256, OutputSha256}

  const GRAPH: set<Field> := {Steps, SelectedExperts, FinalStateSha256, Oracle, Artifact}

  /** The official identity: fields with one acceptable value.  Everything below holds
      for any such constants, as long as they leave the graph fields alone. */
  function Official(): (o: Object)
    ensures Framed(o)
  {
    map[Format := Str("k3x-official-two-layer-v1"),
        Repository := Str("moonshotai/Kimi-K3"),
        ResolvedRevision := Str("9f62e4e9fffbd0a83ddd60e1c209d828994b3569"),
        SnapshotSha256 := Str("deaa6394b80afe12976ce8efbbf2463f6808c291d83b029e6b0cfb98de90a4e5"),
        IndexSha256 := Str("a1c5210650ce71d2d3ae9ec5a101ac4afd3cf4b10091be589853437eb967febd"),
        ConfigSha256 := Str("9710e121a58d03ac92c8d6da287a19541994319afbbe6d6202af001ffd379213"),
        SourceBlobId := Str("b8c41e8bfce768d74d8da3a37e693f5ee43876a0"),
        ShardPaths := List([Str("model-00002-of-000096.safetensors"), Str("model-00003-of-000096.safetensors")]),
        LayerIds := List([Int(1), Int(2)]),
        StepOrder := List([Str("a:1"), Str("a:2"), Str("b:1"), Str("b:2")])]
  }

  predicate Framed(official: Object) {
    official.Keys !! GRAPH
  }

  // ------------------------------------------------------------ JSON values

  predicate IsNumber(j: Json) {
    j.Bool? || j.Int? || j.Float?
  }

  /** The value a number, or a truth value, compares by. */
  function Number(j: Json): real
    requires IsNumber(j)
  {
    match j
    case Bool(b) => if b then 1.0 else 0.0
    case Int(n) => n as real
    case Float(x) => x
  }

  /** Equality of the source language: 1, 1.0 and true are one value. */
  predicate Same(a: Json, b: Json)
    decreases a
  {
    if IsNumber(a) && IsNumber(b) then Number(a) == Number(b)
    else if a.List? && b.List? then
      |a.items| == |b.items| && forall i :: 0 <= i < |a.items| ==> Same(a.items[i], b.items[i])
    else a == b
  }

  lemma {:induction false} SameReflexive(a: Json)
    ensures Same(a, a)
    decreases a
  {
    if a.List? {
      forall i | 0 <= i < |a.items| ensures Same(a.items[i], a.items[i]) {
        SameReflexive(a.items[i]);
      }
    }
  }

  /** A missing field reads as null. */
  function Get(o: Object, f: Field): Json {
    if f in o then o[f] else Null
  }

  /** The fields of an object; a value of another kind has none. */
  function Fields(j: Json): Object {
    if j.Obj? then j.fields else map[]
  }

  predicate Hex(j: Json) {
    j.Str? && ValidDigest(j.text)
  }

  function Integers(ids: seq<int>): (r: seq<Json>)
    ensures |r| == |ids| && forall i :: 0 <= i < |ids| ==> r[i] == Int(ids[i])
  {
    seq(|ids|, i requires 0 <= i < |ids| => Int(ids[i]))
  }

  function Strings(texts: seq<string>): (r: seq<Json>)
    ensures |r| == |texts| && forall i :: 0 <= i < |texts| ==> r[i] == Str(texts[i])
  {
    seq(|texts|, i requires 0 <= i < |texts| => Str(texts[i]))
  }

  function Floats(xs: seq<real>): (r: seq<Json>)
    ensures |r| == |xs| && forall i :: 0 <= i < |xs| ==> r[i] == Float(xs[i])
  {
    seq(|xs|, i requires 0 <= i < |xs| => Float(xs[i]))
  }

  /** The ids of a list of integers. */
  function Ids(j: Json): (r: seq<int>)
    requires j.List? && forall i :: 0 <= i < |j.items| ==> j.items[i].Int?
    ensures |r| == |j.items| && forall i :: 0 <= i < |r| ==> j.items[i] == Int(r[i])
  {
    seq(|j.items|, i requires 0 <= i < |j.items| => j.items[i].integer)
  }

  function Numbers(items: seq<Json>): (r: seq<real>)
    requires forall i :: 0 <= i < |items| ==> IsNumber(items[i])
    ensures |r| == |items| && forall i :: 0 <= i < |r| ==> r[i] == Number(items[i])
  {
    seq(|items|, i requires 0 <= i < |items| => Number(items[i]))
  }

  // ------------------------------------------------------- what is accepted

  predicate GoodIds(j: Json) {
    && j.List? && |j.items| == TOP_K && Distinct(j.items)
    && forall i :: 0 <= i < |j.items| ==> j.items[i].Int? && 0 <= j.items[i].integer < EXPERTS
  }

  predicate GoodContributions(j: Json) {
    && j.List? && |j.items| == TOP_K
    && (forall i :: 0 <= i < |j.items| ==> (j.items[i].Int? || j.items[i].Float?) && Number(j.items[i]) > 0.0)
    && IsClose(Sum(Numbers(j.items)), 1.0, 0.00001)
  }

  predicate GoodStep(j: Json, position: string, layer: int) {
    && j.Obj? && Same(Get(Fields(j), Position), Str(position)) && Same(Get(Fields(j), LayerId), Int(layer))
    && GoodIds(Get(Fields(j), ExpertIds)) && GoodContributions(Get(Fields(j), Contributions))
    && forall f :: f in DIGESTS ==> Hex(Get(Fields(j), f))
  }

  predicate GoodOfficial(official: Object, o: Object) {
    forall f :: f in official ==> Same(Get(o, f), official[f])
  }

  predicate GoodOracle(j: Json) {
    && j.Obj? && Same(Get(Fields(j), Format), Str("k3x-official-two-layer-oracle-v1"))
    && Same(Get(Fields(j), Filename), Str("official-two-layer-oracle-v1.bin"))
    && Same(Get(Fields(j), ByteCount), Int(ORACLE_BYTES)) && Hex(Get(Fields(j), Sha256))
  }

  predicate GoodArtifact(j: Json) {
    && j.Obj? && Same(Get(Fields(j), Filename), Str("official-two-layer.k3x"))
    && Hex(Get(Fields(j), K3xRootSha256)) && Hex(Get(Fields(j), SourceSha256))
    && Get(Fields(j), TensorSha256).Obj?
    && forall f :: f in Get(Fields(j), TensorSha256).fields ==> Hex(Get(Fields(j), TensorSha256).fields[f])
  }

  predicate GoodSteps(j: Json) {
    && j.List? && |j.items| == 4
    && forall i :: 0 <= i < 4 ==> GoodStep(j.items[i], STEP_ORDER[i].0, STEP_ORDER[i].1)
  }

  function StepField(steps: Json, i: nat, f: Field): Json
    requires steps.List? && i < |steps.items|
  {
    Get(Fields(steps.items[i]), f)
  }

  /** Layer 2 consumes layer 1's output; position b consumes position a's states. */
  predicate Chained(steps: Json)
    requires GoodSteps(steps)
  {
    && StepField(steps, 1, HiddenInputSha256) == StepField(steps, 0, OutputSha256)
    && StepField(steps, 3, HiddenInputSha256) == StepField(steps, 2, OutputSha256)
    && StepField(steps, 2, ConsumesStateSha256) == StepField(steps, 0, StateSha256)
    && StepField(steps, 3, ConsumesStateSha256) == StepField(steps, 1, StateSha256)
  }

  /** The first-use union of a layer's two routes. */
  function Union(steps: Json, layer: nat): Json
    requires GoodSteps(steps) && layer < 2
  {
    List(Integers(FirstUse(
      Ids(StepField(steps, layer, ExpertIds)) + Ids(StepField(steps, layer + 2, ExpertIds)))))
  }

  predicate Linked(steps: Json, selected: Json, final: Json)
    requires GoodSteps(steps)
  {
    && Chained(steps)
    && Same(selected, List([Union(steps, 0), Union(steps, 1)]))
    && Same(final, List([StepField(steps, 2, StateSha256), StepField(steps, 3, StateSha256)]))
  }

  predicate GoodGraph(o: Object) {
    GoodSteps(Get(o, Steps)) && Linked(Get(o, Steps), Get(o, SelectedExperts), Get(o, FinalStateSha256))
  }

  predicate Accepted(official: Object, o: Object) {
    GoodOfficial(official, o) && GoodGraph(o) && GoodOracle(Get(o, Oracle)) && GoodArtifact(Get(o, Artifact))
  }

  // --------------------------------------------------------- what is kept

  /** The named fields of an object, as they are. */
  function Kept(o: Object, fields: set<Field>): Object {
    map f | f in fields :: Get(o, f)
  }

  function StepIdentity(step: Json, position: string, layer: int): Json {
    Obj(Kept(Fields(step), {ExpertIds, Contributions} + DIGESTS)[Position := Str(position)][LayerId := Int(layer)])
  }

  function StepIdentities(steps: Json): (r: seq<Json>)
    requires GoodSteps(steps)
    ensures |r| == 4
    ensures forall i :: 0 <= i < 4 ==> r[i] == StepIdentity(steps.items[i], STEP_ORDER[i].0, STEP_ORDER[i].1)
  {
    seq(4, i requires 0 <= i < 4 => StepIdentity(steps.items[i], STEP_ORDER[i].0, STEP_ORDER[i].1))
  }

  function OracleIdentity(j: Json): Json {
    Obj(Kept(Fields(j), {Format, Filename, Sha256, ByteCount}))
  }

  function ArtifactIdentity(j: Json): Json {
    Obj(Kept(Fields(j), {Filename, K3xRootSha256, SourceSha256, TensorSha256}))
  }

  /** The identity of an accepted manifest: the official constants and the graph,
      without any field the tool does not know. */
  function Identity(official: Object, o: Object): Object
    requires Accepted(official, o)
  {
    official[Steps := List(StepIdentities(Get(o, Steps)))]
            [SelectedExperts := Get(o, SelectedExperts)]
            [FinalStateSha256 := Get(o, FinalStateSha256)]
            [Oracle := OracleIdentity(Get(o, Oracle))]
            [Artifact := ArtifactIdentity(Get(o, Artifact))]
  }

  /** The graph fields have the right shapes. */
  predicate HasGraph(o: Object) {
    && Get(o, Steps).List? && |Get(o, Steps).items| == 4
    && Get(o, SelectedExperts).List? && |Get(o, SelectedExperts).items| == 2
    && Get(o, FinalStateSha256).List? && |Get(o, FinalStateSha256).items| == 2
    && Get(o, Oracle).Obj? && Get(o, Artifact).Obj?
  }

  method ManifestIdentity(o: Object) returns (r: Result<Object>)
    ensures r.Ok? <==> Accepted(Official(), o)
    ensures r.Ok? ==> r.value == Identity(Official(), o)
  {
    hide Official, Same, GoodStep, GoodOracle, GoodArtifact, Union, Chained, StepIdentity, OracleIdentity, ArtifactIdentity;
    if !GoodOfficial(Official(), o) {
      return Err(ManifestDiverged);
    }
    var steps, selected, final := Get(o, Steps), Get(o, SelectedExperts), Get(o, FinalStateSha256);
    var oracle, artifact := Get(o, Oracle), Get(o, Artifact);
    if !HasGraph(o) {
      AcceptedHasGraph(Official(), o);
      return Err(ManifestDiverged);
    }
    var identities := [];
    for i := 0 to 4
      invariant |identities| == i
      invariant forall j :: 0 <= j < i ==> GoodStep(steps.items[j], STEP_ORDER[j].0, STEP_ORDER[j].1)
      invariant forall j :: 0 <= j < i ==>
        identities[j] == StepIdentity(steps.items[j], STEP_ORDER[j].0, STEP_ORDER[j].1)
    {
      var step := steps.items[i];
      if !GoodStep(step, STEP_ORDER[i].0, STEP_ORDER[i].1) {
        return Err(ManifestDiverged);
      }
      identities := identities + [StepIdentity(step, STEP_ORDER[i].0, STEP_ORDER[i].1)];
    }
    if !Chained(steps) {
      return Err(ManifestDiverged);
    }
    if !Same(selected, List([Union(steps, 0), Union(steps, 1)])) {
      return Err(ManifestDiverged);
    }
    if !Same(final, List([StepField(steps, 2, StateSha256), StepField(steps, 3, StateSha256)])) {
      return Err(ManifestDiverged);
    }
    if !GoodOracle(oracle) || !GoodArtifact(artifact) {
      return Err(ManifestDiverged);
    }
    assert identities == StepIdentities(steps);
    return Ok(Official()[Steps := List(identities)][SelectedExperts := selected][FinalStateSha256 := final]
                      [Oracle := OracleIdentity(oracle)][Artifact := ArtifactIdentity(artifact)]);
  }

  lemma {:induction false} AcceptedHasGraph(official: Object, o: Object)
    ensures Accepted(official, o) ==> HasGraph(o)
  {
    hide GoodOfficial, GoodStep, Chained, Union, StepField;
  }

  // ---------------------------------------------------------- idempotence

  lemma KeptAgain(o: Object, fields: set<Field>)
    ensures Kept(Kept(o, fields), fields) == Kept(o, fields)
    ensures forall f :: f in fields ==> Get(Kept(o, fields), f) == Get(o, f)
  {
  }

  lemma StepKept(step: Json, position: string, layer: int)
    ensures var kept := StepIdentity(step, position, layer);
            && kept.Obj? && (forall f :: f in DIGESTS ==> Get(kept.fields, f) == Get(Fields(step), f))
            && Get(kept.fields, ExpertIds) == Get(Fields(step), ExpertIds)
            && Get(kept.fields, Contributions) == Get(Fields(step), Contributions)
            && Get(kept.fields, Position) == Str(position) && Get(kept.fields, LayerId) == Int(layer)
  {
  }

  lemma {:induction false} StepTwice(step: Json, position: string, layer: int)
    ensures StepIdentity(StepIdentity(step, position, layer), position, layer) == StepIdentity(step, position, layer)
  {
    var once := StepIdentity(step, position, layer);
    var twice := StepIdentity(once, position, layer);
    assert once.fields.Keys == twice.fields.Keys == {ExpertIds, Contributions} + DIGESTS + {Position, LayerId};
    forall f | f in once.fields ensures once.fields[f] == twice.fields[f] {
    }
  }

  lemma {:induction false} StepAgain(step: Json, position: string, layer: int)
    requires GoodStep(step, position, layer)
    ensures GoodStep(StepIdentity(step, position, layer), position, layer)
  {
    hide GoodIds, GoodContributions, Hex, StepIdentity;
    StepKept(step, position, layer);
  }

  lemma {:induction false} OracleAgain(j: Json)
    requires GoodOracle(j)
    ensures GoodOracle(OracleIdentity(j)) && OracleIdentity(OracleIdentity(j)) == OracleIdentity(j)
  {
    hide Hex, Same;
    KeptAgain(Fields(j), {Format, Filename, Sha256, ByteCount});
  }

  lemma {:induction false} ArtifactAgain(j: Json)
    requires GoodArtifact(j)
    ensures GoodArtifact(ArtifactIdentity(j)) && ArtifactIdentity(ArtifactIdentity(j)) == ArtifactIdentity(j)
  {
    hide Hex, Same;
    KeptAgain(Fields(j), {Filename, K3xRootSha256, SourceSha256, TensorSha256});
  }

  lemma {:induction false} IdentityFields(official: Object, o: Object)
    requires Framed(official) && Accepted(official, o)
    ensures var i := Identity(official, o);
            && Get(i, Steps) == List(StepIdentities(Get(o, Steps)))
            && Get(i, SelectedExperts) == Get(o, SelectedExperts)
            && Get(i, FinalStateSha256) == Get(o, FinalStateSha256)
            && Get(i, Oracle) == OracleIdentity(Get(o, Oracle))
            && Get(i, Artifact) == ArtifactIdentity(Get(o, Artifact))
            && forall f :: f in official ==> f in i && i[f] == official[f]
  {
    hide GoodOfficial, GoodGraph, GoodOracle, GoodArtifact, OracleIdentity, ArtifactIdentity;
  }

  lemma {:induction false} StepsAgain(steps: Json)
    requires GoodSteps(steps)
    ensures var again := List(StepIdentities(steps));
            && GoodSteps(again) && StepIdentities(again) == again.items
            && (Chained(again) <==> Chained(steps))
            && (forall l: nat :: l < 2 ==> Union(again, l) == Union(steps, l))
            && (forall i: nat, f :: i < 4 && f in DIGESTS ==> StepField(again, i, f) == StepField(steps, i, f))
  {
    hide StepIdentity, GoodStep, FirstUse, Ids;
    var again := List(StepIdentities(steps));
    forall i | 0 <= i < 4
      ensures GoodStep(again.items[i], STEP_ORDER[i].0, STEP_ORDER[i].1)
      ensures StepIdentity(again.items[i], STEP_ORDER[i].0, STEP_ORDER[i].1) == again.items[i]
      ensures Get(Fields(again.items[i]), ExpertIds) == Get(Fields(steps.items[i]), ExpertIds)
      ensures forall f :: f in DIGESTS ==> Get(Fields(again.items[i]), f) == Get(Fields(steps.items[i]), f)
    {
      StepAgain(steps.items[i], STEP_ORDER[i].0, STEP_ORDER[i].1);
      StepTwice(steps.items[i], STEP_ORDER[i].0, STEP_ORDER[i].1);
      StepKept(steps.items[i], STEP_ORDER[i].0, STEP_ORDER[i].1);
    }
  }

  /** The identity is an accepted manifest, and it is its own identity. */
  lemma {:induction false} IdentityIsIdempotent(official: Object, o: Object)
    requires Framed(official) && Accepted(official, o)
    ensures Accepted(official, Identity(official, o))
    ensures Identity(official, Identity(official, o)) == Identity(official, o)
  {
    hide Framed, GoodSteps, Chained, Union, StepField, GoodOracle, GoodArtifact, StepIdentities, Same, Identity;
    hide OracleIdentity, ArtifactIdentity;
    var once := Identity(official, o);
    IdentityFields(official, o);
    StepsAgain(Get(o, Steps));
    OracleAgain(Get(o, Oracle));
    ArtifactAgain(Get(o, Artifact));
    forall f | f in official ensures Same(Get(once, f), official[f]) {
      SameReflexive(official[f]);
    }
    assert GoodGraph(once);
    IdentityFields(official, once);
    SameIdentity(official, o, once);
  }

  lemma {:induction false} SameIdentity(official: Object, o: Object, p: Object)
    requires Accepted(official, o) && Accepted(official, p)
    requires StepIdentities(Get(o, Steps)) == StepIdentities(Get(p, Steps))
    requires Get(o, SelectedExperts) == Get(p, SelectedExperts)
    requires Get(o, FinalStateSha256) == Get(p, FinalStateSha256)
    requires OracleIdentity(Get(o, Oracle)) == OracleIdentity(Get(p, Oracle))
    requires ArtifactIdentity(Get(o, Artifact)) == ArtifactIdentity(Get(p, Artifact))
    ensures Identity(official, o) == Identity(official, p)
  {
    hide GoodOfficial, GoodGraph, GoodOracle, GoodArtifact, OracleIdentity, ArtifactIdentity;
  }

  // ----------------------------------------------- acceptance, field by field

  lemma {:induction false} SameText(a: Json, text: string)
    ensures Same(a, Str(text)) <==> a == Str(text)
  {
  }

  lemma {:induction false} SameInteger(a: Json, n: int)
    ensures Same(a, Int(n)) <==> IsNumber(a) && Number(a) == n as real
  {
  }

  /** Field `f` is there and holds 64 hexadecimal digits. */
  predicate Digest(o: Object, f: Field) {
    f in o && o[f].Str? && ValidDigest(o[f].text)
  }

  lemma DigestIsHex(o: Object, f: Field)
    ensures Hex(Get(o, f)) <==> Digest(o, f)
  {
  }

  /** What a step is accepted for, field by field. */
  lemma {:induction false} StepByFields(o: Object, position: string, layer: int)
    ensures GoodStep(Obj(o), position, layer) <==>
            && Position in o && o[Position] == Str(position)
            && LayerId in o && IsNumber(o[LayerId]) && Number(o[LayerId]) == layer as real
            && ExpertIds in o && GoodIds(o[ExpertIds]) && Contributions in o && GoodContributions(o[Contributions])
            && Digest(o, HiddenInputSha256) && Digest(o, BlockSha256) && Digest(o, ConsumesStateSha256)
            && Digest(o, StateSha256) && Digest(o, KdaOutputSha256) && Digest(o, ContributionSha256)
            && Digest(o, OutputSha256)
  {
    hide Hex, Digest, GoodIds, GoodContributions, Same;
    SameText(Get(o, Position), position);
    SameInteger(Get(o, LayerId), layer);
    NothingIsNull();
    DigestsByFields(o);
  }

  lemma {:induction false} DigestsByFields(o: Object)
    ensures (forall f :: f in DIGESTS ==> Hex(Get(o, f))) <==>
            && Digest(o, HiddenInputSha256) && Digest(o, BlockSha256) && Digest(o, ConsumesStateSha256)
            && Digest(o, StateSha256) && Digest(o, KdaOutputSha256) && Digest(o, ContributionSha256)
            && Digest(o, OutputSha256)
  {
    hide Hex, Digest;
    assert forall f :: f in DIGESTS <==>
      f == HiddenInputSha256 || f == BlockSha256 || f == ConsumesStateSha256 || f == StateSha256
      || f == KdaOutputSha256 || f == ContributionSha256 || f == OutputSha256;
    forall f | f in DIGESTS ensures Hex(Get(o, f)) <==> Digest(o, f) {
      DigestIsHex(o, f);
    }
  }

  lemma NothingIsNull()
    ensures !GoodIds(Null) && !GoodContributions(Null)
  {
  }

  /** Sixteen different integers from 0 to 895. */
  lemma {:induction false} IdsByFields(items: seq<Json>)
    ensures GoodIds(List(items)) <==>
            && |items| == 16
            && (forall i :: 0 <= i < |items| ==> items[i].Int? && 0 <= items[i].integer <= 895)
            && forall i, j :: 0 <= i < j < |items| ==> items[i] != items[j]
  {
  }

  /** Sixteen strictly positive numbers, none a truth value, whose sum is one up to 1e-5. */
  lemma {:induction false} ContributionsByFields(items: seq<Json>)
    ensures GoodContributions(List(items)) <==>
            && |items| == 16
            && (forall i :: 0 <= i < |items| ==>
                  (items[i].Int? && items[i].integer > 0) || (items[i].Float? && items[i].number > 0.0))
            && (forall i :: 0 <= i < |items| ==> IsNumber(items[i]))
            && 0.99999 <= Sum(Numbers(items)) <= 1.00001
  {
    hide Sum;
    assert forall i :: 0 <= i < |items| && items[i].Int? ==> (Number(items[i]) > 0.0 <==> items[i].integer > 0);
  }

  /** The oracle record: three constants and a digest. */
  lemma {:induction false} OracleByFields(o: Object)
    ensures GoodOracle(Obj(o)) <==>
            && Format in o && o[Format] == Str("k3x-official-two-layer-oracle-v1")
            && Filename in o && o[Filename] == Str("official-two-layer-oracle-v1.bin")
            && ByteCount in o && IsNumber(o[ByteCount]) && Number(o[ByteCount]) == 13053992.0
            && Digest(o, Sha256)
  {
    hide Same, Digest, Hex;
    SameText(Get(o, Format), "k3x-official-two-layer-oracle-v1");
    SameText(Get(o, Filename), "official-two-layer-oracle-v1.bin");
    SameInteger(Get(o, ByteCount), 13053992);
    DigestIsHex(o, Sha256);
  }

  /** The artifact record: its name, two digests and a digest for every tensor. */
  lemma {:induction false} ArtifactByFields(o: Object)
    ensures GoodArtifact(Obj(o)) <==>
            && Filename in o && o[Filename] == Str("official-two-layer.k3x")
            && Digest(o, K3xRootSha256) && Digest(o, SourceSha256)
            && TensorSha256 in o && o[TensorSha256].Obj?
            && forall f :: f in o[TensorSha256].fields ==> Digest(o[TensorSha256].fields, f)
  {
    hide Same, Digest, Hex;
    SameText(Get(o, Filename), "official-two-layer.k3x");
    DigestIsHex(o, K3xRootSha256);
    DigestIsHex(o, SourceSha256);
    if TensorSha256 in o && o[TensorSha256].Obj? {
      forall f | f in o[TensorSha256].fields
        ensures Hex(o[TensorSha256].fields[f]) <==> Digest(o[TensorSha256].fields, f)
      {
        DigestIsHex(o[TensorSha256].fields, f);
      }
    }
  }

  /** Four steps: position a through layers 1 and 2, then position b. */
  lemma {:induction false} StepsByFields(steps: seq<Json>)
    ensures GoodSteps(List(steps)) <==>
            && |steps| == 4 && GoodStep(steps[0], "a", 1) && GoodStep(steps[1], "a", 2)
            && GoodStep(steps[2], "b", 1) && GoodStep(steps[3], "b", 2)
  {
    hide GoodStep;
  }

  lemma IdsThere(o: Object, position: string, layer: int)
    requires GoodStep(Obj(o), position, layer)
    ensures GoodIds(Get(o, ExpertIds))
  {
  }

  /** The union of the routes of one layer, position a first. */
  function Merged(a: Object, b: Object): Json
    requires GoodIds(Get(a, ExpertIds)) && GoodIds(Get(b, ExpertIds))
  {
    List(Integers(FirstUse(Ids(Get(a, ExpertIds)) + Ids(Get(b, ExpertIds)))))
  }

  /** Four acceptable steps are linked exactly when layer 2 takes the digest of layer 1's
      output, position b takes the states position a left, the selected experts are the two
      unions and the final states are those position b left. */
  lemma {:induction false} LinkedByFields(a1: Object, a2: Object, b1: Object, b2: Object, selected: Json, final: Json)
    requires GoodSteps(List([Obj(a1), Obj(a2), Obj(b1), Obj(b2)]))
    ensures GoodIds(Get(a1, ExpertIds)) && GoodIds(Get(a2, ExpertIds))
    ensures GoodIds(Get(b1, ExpertIds)) && GoodIds(Get(b2, ExpertIds))
    ensures Linked(List([Obj(a1), Obj(a2), Obj(b1), Obj(b2)]), selected, final) <==>
            && Get(a2, HiddenInputSha256) == Get(a1, OutputSha256)
            && Get(b2, HiddenInputSha256) == Get(b1, OutputSha256)
            && Get(b1, ConsumesStateSha256) == Get(a1, StateSha256)
            && Get(b2, ConsumesStateSha256) == Get(a2, StateSha256)
            && Same(selected, List([Merged(a1, b1), Merged(a2, b2)]))
            && Same(final, List([Get(b1, StateSha256), Get(b2, StateSha256)]))
  {
    hide GoodStep, GoodIds, Same;
    var steps := List([Obj(a1), Obj(a2), Obj(b1), Obj(b2)]);
    StepsByFields(steps.items);
    IdsThere(a1, "a", 1);
    IdsThere(a2, "a", 2);
    IdsThere(b1, "b", 1);
    IdsThere(b2, "b", 2);
    assert StepField(steps, 0, ExpertIds) == Get(a1, ExpertIds) && StepField(steps, 2, ExpertIds) == Get(b1, ExpertIds);
    assert StepField(steps, 1, ExpertIds) == Get(a2, ExpertIds) && StepField(steps, 3, ExpertIds) == Get(b2, ExpertIds);
    assert Union(steps, 0) == Merged(a1, b1);
    assert Union(steps, 1) == Merged(a2, b2);
  }

  /** A field of `kept` is a field of `o`, as it is. */
  predicate TakenFrom(kept: Object, o: Object, f: Field) {
    f in o && f in kept && kept[f] == o[f]
  }

  /** The identity keeps the eleven fields of each step and no other. */
  lemma {:induction false} StepKeepsKnown(o: Object, position: string, layer: int)
    requires GoodStep(Obj(o), position, layer)
    ensures var kept := StepIdentity(Obj(o), position, layer);
            && kept.Obj?
            && kept.fields.Keys == {Position, LayerId, ExpertIds, Contributions, HiddenInputSha256, BlockSha256,
                 ConsumesStateSha256, StateSha256, KdaOutputSha256, ContributionSha256, OutputSha256}
            && Position in kept.fields && kept.fields[Position] == Str(position)
            && LayerId in kept.fields && kept.fields[LayerId] == Int(layer)
            && TakenFrom(kept.fields, o, ExpertIds) && TakenFrom(kept.fields, o, Contributions)
            && TakenFrom(kept.fields, o, HiddenInputSha256) && TakenFrom(kept.fields, o, BlockSha256)
            && TakenFrom(kept.fields, o, ConsumesStateSha256) && TakenFrom(kept.fields, o, StateSha256)
            && TakenFrom(kept.fields, o, KdaOutputSha256) && TakenFrom(kept.fields, o, ContributionSha256)
            && TakenFrom(kept.fields, o, OutputSha256)
  {
    var kept := StepIdentity(Obj(o), position, layer);
    StepByFields(o, position, layer);
    StepKept(Obj(o), position, layer);
    StepKeys(Obj(o), position, layer);
    assert Fields(Obj(o)) == o;
    hide GoodStep, Hex, Same, GoodIds, GoodContributions, ValidDigest, StepIdentity;
    forall f | f in DIGESTS ensures TakenFrom(kept.fields, o, f) {
      assert Get(kept.fields, f) == Get(o, f);
    }
  }

  lemma {:induction false} StepKeys(step: Json, position: string, layer: int)
    ensures var kept := StepIdentity(step, position, layer);
            && kept.Obj? && kept.fields.Keys == {Position, LayerId, ExpertIds, Contributions, HiddenInputSha256, BlockSha256,
                 ConsumesStateSha256, StateSha256, KdaOutputSha256, ContributionSha256, OutputSha256}
  {
  }

  /** Of the oracle and the artifact record it keeps four fields each. */
  lemma {:induction false} RecordsKeepKnown(oracle: Object, artifact: Object)
    requires GoodOracle(Obj(oracle)) && GoodArtifact(Obj(artifact))
    ensures var kept := OracleIdentity(Obj(oracle));
            && kept.Obj? && kept.fields.Keys == {Format, Filename, Sha256, ByteCount}
            && TakenFrom(kept.fields, oracle, Format) && TakenFrom(kept.fields, oracle, Filename)
            && TakenFrom(kept.fields, oracle, Sha256) && TakenFrom(kept.fields, oracle, ByteCount)
    ensures var kept := ArtifactIdentity(Obj(artifact));
            && kept.Obj? && kept.fields.Keys == {Filename, K3xRootSha256, SourceSha256, TensorSha256}
            && TakenFrom(kept.fields, artifact, Filename) && TakenFrom(kept.fields, artifact, K3xRootSha256)
            && TakenFrom(kept.fields, artifact, SourceSha256) && TakenFrom(kept.fields, artifact, TensorSha256)
  {
    DigestIsHex(oracle, Sha256);
    DigestIsHex(artifact, K3xRootSha256);
    DigestIsHex(artifact, SourceSha256);
    hide ValidDigest;
  }

  /** The identity has the official fields, with their constants, and five more. */
  lemma {:induction false} IdentityByFields(official: Object, o: Object)
    requires Framed(official) && Accepted(official, o)
    ensures var i := Identity(official, o);
            && i.Keys == official.Keys + {Steps, SelectedExperts, FinalStateSha256, Oracle, Artifact}
            && (forall f :: f in official ==> i[f] == official[f])
            && i[Steps].List? && |i[Steps].items| == 4 && Get(o, Steps).List? && |Get(o, Steps).items| == 4
            && i[Steps].items[0] == StepIdentity(Get(o, Steps).items[0], "a", 1)
            && i[Steps].items[1] == StepIdentity(Get(o, Steps).items[1], "a", 2)
            && i[Steps].items[2] == StepIdentity(Get(o, Steps).items[2], "b", 1)
            && i[Steps].items[3] == StepIdentity(Get(o, Steps).items[3], "b", 2)
            && TakenFrom(i, o, SelectedExperts) && TakenFrom(i, o, FinalStateSha256)
            && Oracle in o && i[Oracle] == OracleIdentity(o[Oracle])
            && Artifact in o && i[Artifact] == ArtifactIdentity(o[Artifact])
  {
    hide GoodOfficial, GoodStep, Linked, StepIdentity, OracleIdentity, ArtifactIdentity;
    AcceptedHasGraph(official, o);
    IdentityFields(official, o);
  }

  // ------------------------------------------------- the manifest of a run

  function StepObject(s: TraceStep): Json {
    Obj(map[Position := Str(s.position), LayerId := Int(s.layerId),
            HiddenInputSha256 := Str(s.hiddenSha256), BlockSha256 := Str(s.blockSha256),
            ConsumesStateSha256 := Str(s.consumesSha256), StateSha256 := Str(s.stateSha256),
            KdaOutputSha256 := Str(s.kdaSha256),
            ExpertIds := List(Integers(s.route.experts)), Contributions := List(Floats(s.route.contributions)),
            ContributionSha256 := Str(s.contributionSha256), OutputSha256 := Str(s.outputSha256)])
  }

  function StepObjects(steps: seq<TraceStep>): (r: Json)
    ensures r.List? && |r.items| == |steps| && forall i :: 0 <= i < |steps| ==> r.items[i] == StepObject(steps[i])
  {
    List(seq(|steps|, i requires 0 <= i < |steps| => StepObject(steps[i])))
  }

  function Selections(selected: seq<seq<int>>): (r: Json)
    ensures r.List? && |r.items| == |selected|
    ensures forall l :: 0 <= l < |selected| ==> r.items[l] == List(Integers(selected[l]))
  {
    List(seq(|selected|, l requires 0 <= l < |selected| => List(Integers(selected[l]))))
  }

  /** What a run writes: its trace, the oracle and artifact records, and the fields of
      `base`, which hold the official identity and whatever else is recorded. */
  function Written(t: Trace, base: Object, oracle: Json, artifact: Json): Object {
    base[Steps := StepObjects(t.steps)][SelectedExperts := Selections(t.selected)]
        [FinalStateSha256 := List(Strings(t.finalSha256))][Oracle := oracle][Artifact := artifact]
  }

  /** What the closure tool asks of a route beyond what the replay asks. */
  predicate FullRoute(route: Route) {
    && |route.experts| == TOP_K
    && forall i :: 0 <= i < |route.contributions| ==> route.contributions[i] > 0.0
  }

  /** Digest functions return 64 hexadecimal digits. */
  ghost predicate HexDigests(k: Kernels) {
    && (forall v: Vector :: ValidDigest(k.floatDigest(v)))
    && forall route: Route :: ValidDigest(k.contributionDigest(route))
  }

  lemma {:induction false} WrittenRoute(route: Route)
    requires ValidRoute(route)
    ensures GoodIds(List(Integers(route.experts))) && GoodContributions(List(Floats(route.contributions))) <==>
            FullRoute(route)
  {
    var floats := Floats(route.contributions);
    assert Numbers(floats) == route.contributions;
    if FullRoute(route) {
      assert forall i :: 0 <= i < |floats| ==> Number(floats[i]) == route.contributions[i];
    } else if |route.experts| == TOP_K {
      var i :| 0 <= i < |route.contributions| && route.contributions[i] <= 0.0;
      assert Number(floats[i]) <= 0.0;
    }
  }

  /** Every digest of a step is well formed. */
  predicate StepDigests(s: TraceStep) {
    && ValidDigest(s.hiddenSha256) && ValidDigest(s.blockSha256) && ValidDigest(s.consumesSha256)
    && ValidDigest(s.stateSha256) && ValidDigest(s.kdaSha256)
    && ValidDigest(s.contributionSha256) && ValidDigest(s.outputSha256)
  }

  lemma {:induction false} WrittenStep(s: TraceStep, position: string, layer: int)
    requires s.position == position && s.layerId == layer && StepDigests(s) && ValidRoute(s.route)
    ensures GoodStep(StepObject(s), position, layer) <==> FullRoute(s.route)
  {
    hide ValidDigest, ValidRoute, FullRoute, GoodIds, GoodContributions;
    WrittenRoute(s.route);
    forall f | f in DIGESTS ensures Hex(Get(Fields(StepObject(s)), f)) {
    }
  }

  /** The trace of a manufactured two-by-two run. */
  ghost predicate TwoByTwo(job: Job, t: Trace) {
    && |job.inputs| == |job.initial| == 2
    && InOrder(job.kernels, OFFICIAL, OFFICIAL.layerIds, job.inputs, job.initial)
    && ResultsValid(job) && TraceOf(job, OFFICIAL.layerIds, t) && HexDigests(job.kernels)
  }

  /** The step of position i, layer l is entry 2 * i + l of the trace. */
  lemma {:induction false} StepOf(job: Job, t: Trace, i: nat, l: nat)
    requires TwoByTwo(job, t) && i < 2 && l < 2
    ensures |t.steps| == 4
    ensures t.steps[2 * i + l] ==
            Stepped(job.kernels, job.InputAt(i, l), OFFICIAL.layerIds[l], job.StateBefore(i, l), job.Exec(i, l))
    ensures STEP_ORDER[2 * i + l] == (job.inputs[i].name, OFFICIAL.layerIds[l])
    ensures job.InputAt(i, l).name == job.inputs[i].name
  {
    hide ResultsValid, HexDigests, ValidInput, ValidDigest, Stepped, Job.Exec, Job.StateBefore;
    assert Call(i, l, 2) == 2 * i + l;
  }

  lemma {:induction false} StateDigest(job: Job, i: nat, l: nat)
    requires InOrder(job.kernels, OFFICIAL, OFFICIAL.layerIds, job.inputs, job.initial) && ResultsValid(job)
    requires i <= |job.inputs| && l < |job.initial|
    ensures ValidDigest(job.StateBefore(i, l).sha256)
  {
    hide Job.Exec, ValidDigest, ValidInput, ValidRoute;
    if i > 0 {
      assert ValidResult(job.Exec(i - 1, l), |job.inputs[i - 1].hidden|);
    }
  }

  lemma {:induction false} InputDigests(job: Job, i: nat, l: nat)
    requires InOrder(job.kernels, OFFICIAL, OFFICIAL.layerIds, job.inputs, job.initial) && HexDigests(job.kernels)
    requires i < |job.inputs| && l <= |job.initial|
    ensures ValidDigest(job.InputAt(i, l).hiddenSha256) && ValidDigest(job.InputAt(i, l).blockSha256)
  {
    hide Job.Exec, ValidDigest;
    assert ValidInput(job.kernels, job.inputs[i]);
  }

  lemma {:induction false} StepOfIsValid(job: Job, t: Trace, i: nat, l: nat)
    requires TwoByTwo(job, t) && i < 2 && l < 2
    ensures |t.steps| == 4 && 2 * i + l < 4
    ensures StepDigests(t.steps[2 * i + l]) && ValidRoute(t.steps[2 * i + l].route)
    ensures GoodStep(StepObject(t.steps[2 * i + l]), STEP_ORDER[2 * i + l].0, STEP_ORDER[2 * i + l].1) <==>
            FullRoute(job.Exec(i, l).route)
  {
    hide Job.Exec, Job.InputAt, Job.StateBefore, ValidDigest, InOrder, TraceOf, ValidRoute, FullRoute, StepObject, GoodStep;
    StepOf(job, t, i, l);
    StateDigest(job, i, l);
    InputDigests(job, i, l);
    assert ValidResult(job.Exec(i, l), |job.inputs[i].hidden|);
    WrittenStep(t.steps[2 * i + l], STEP_ORDER[2 * i + l].0, STEP_ORDER[2 * i + l].1);
  }

  /** Every route of the run is full. */
  ghost predicate FullRoutes(job: Job) {
    forall i: nat, l: nat | i < |job.inputs| && l < |job.initial| :: FullRoute(job.Exec(i, l).route)
  }

  lemma {:induction false} WrittenSteps(job: Job, t: Trace)
    requires TwoByTwo(job, t)
    ensures GoodSteps(StepObjects(t.steps)) <==> FullRoutes(job)
  {
    hide TwoByTwo, GoodStep, FullRoute, StepDigests, ValidRoute, StepObject, Job.Exec;
    assert |job.inputs| == |job.initial| == 2 by { TwoByTwoSizes(job, t); }
    forall i: nat, l: nat | i < 2 && l < 2
      ensures |t.steps| == 4 && 2 * i + l < 4
      ensures GoodStep(StepObject(t.steps[2 * i + l]), STEP_ORDER[2 * i + l].0, STEP_ORDER[2 * i + l].1) <==>
              FullRoute(job.Exec(i, l).route)
    {
      StepOfIsValid(job, t, i, l);
    }
    StepOfIsValid(job, t, 0, 0);
    StepOfIsValid(job, t, 0, 1);
    StepOfIsValid(job, t, 1, 0);
    StepOfIsValid(job, t, 1, 1);
  }

  lemma TwoByTwoSizes(job: Job, t: Trace)
    requires TwoByTwo(job, t)
    ensures |job.inputs| == |job.initial| == 2
  {
  }

  /** Each field of a written step is the field of the trace that carries its name. */
  lemma WrittenFields(s: TraceStep)
    ensures Get(Fields(StepObject(s)), Position) == Str(s.position)
    ensures Get(Fields(StepObject(s)), LayerId) == Int(s.layerId)
    ensures Get(Fields(StepObject(s)), HiddenInputSha256) == Str(s.hiddenSha256)
    ensures Get(Fields(StepObject(s)), BlockSha256) == Str(s.blockSha256)
    ensures Get(Fields(StepObject(s)), ConsumesStateSha256) == Str(s.consumesSha256)
    ensures Get(Fields(StepObject(s)), StateSha256) == Str(s.stateSha256)
    ensures Get(Fields(StepObject(s)), KdaOutputSha256) == Str(s.kdaSha256)
    ensures Get(Fields(StepObject(s)), ExpertIds) == List(Integers(s.route.experts))
    ensures Get(Fields(StepObject(s)), Contributions) == List(Floats(s.route.contributions))
    ensures Get(Fields(StepObject(s)), ContributionSha256) == Str(s.contributionSha256)
    ensures Get(Fields(StepObject(s)), OutputSha256) == Str(s.outputSha256)
  {
  }

  /** Layer 2 consumes the output of layer 1 at the same position. */
  lemma {:induction false} HiddenChain(job: Job, t: Trace, i: nat)
    requires TwoByTwo(job, t) && i < 2
    ensures |t.steps| == 4 && t.steps[2 * i + 1].hiddenSha256 == t.steps[2 * i].outputSha256
  {
    hide Job.Exec, Job.StateBefore, TwoByTwo;
    StepOf(job, t, i, 0);
    StepOf(job, t, i, 1);
    TwoByTwoSizes(job, t);
    assert job.InputAt(i, 1) == Advance(job.kernels, job.inputs[i], job.Exec(i, 0).output);
  }

  /** Position b consumes the state position a left in the same layer, and leaves the final one. */
  lemma {:induction false} StateChain(job: Job, t: Trace, l: nat)
    requires TwoByTwo(job, t) && l < 2
    ensures |t.steps| == 4 && t.steps[2 + l].consumesSha256 == t.steps[l].stateSha256
    ensures |t.finalSha256| == 2 && t.finalSha256[l] == t.steps[2 + l].stateSha256
    ensures |t.selected| == 2 && t.selected[l] == FirstUse(t.steps[l].route.experts + t.steps[2 + l].route.experts)
  {
    hide Job.Exec, Job.InputAt, FirstUse, InOrder, HexDigests, ResultsValid;
    StepOf(job, t, 0, l);
    StepOf(job, t, 1, l);
    TwoRoutes(job, l);
  }

  lemma {:induction false} TwoRoutes(job: Job, l: nat)
    requires |job.inputs| == 2 && l < |job.initial|
    ensures job.Routed(l, 2) == job.Exec(0, l).route.experts + job.Exec(1, l).route.experts
  {
    hide Job.Exec;
    assert job.Routed(l, 1) == job.Routed(l, 0) + job.Exec(0, l).route.experts;
  }

  lemma {:induction false} WrittenUnion(t: Trace, layer: nat)
    requires |t.steps| == 4 && layer < 2 && GoodSteps(StepObjects(t.steps))
    ensures Union(StepObjects(t.steps), layer) ==
            List(Integers(FirstUse(t.steps[layer].route.experts + t.steps[layer + 2].route.experts)))
  {
    hide FirstUse, GoodStep, StepObject;
    var steps := StepObjects(t.steps);
    WrittenFields(t.steps[layer]);
    WrittenFields(t.steps[layer + 2]);
    var a, b := t.steps[layer].route.experts, t.steps[layer + 2].route.experts;
    assert StepField(steps, layer, ExpertIds) == List(Integers(a));
    assert StepField(steps, layer + 2, ExpertIds) == List(Integers(b));
    assert Ids(List(Integers(a))) == a && Ids(List(Integers(b))) == b;
  }

  lemma {:induction false} WrittenDigests(t: Trace, i: nat)
    requires i < |t.steps|
    ensures StepField(StepObjects(t.steps), i, HiddenInputSha256) == Str(t.steps[i].hiddenSha256)
    ensures StepField(StepObjects(t.steps), i, OutputSha256) == Str(t.steps[i].outputSha256)
    ensures StepField(StepObjects(t.steps), i, ConsumesStateSha256) == Str(t.steps[i].consumesSha256)
    ensures StepField(StepObjects(t.steps), i, StateSha256) == Str(t.steps[i].stateSha256)
  {
    hide StepObject;
    WrittenFields(t.steps[i]);
  }

  lemma {:induction false} WrittenChained(job: Job, t: Trace)
    requires TwoByTwo(job, t) && |t.steps| == 4 && GoodSteps(StepObjects(t.steps))
    ensures Chained(StepObjects(t.steps))
    ensures List(Strings(t.finalSha256)) == List([StepField(StepObjects(t.steps), 2, StateSha256),
                                                  StepField(StepObjects(t.steps), 3, StateSha256)])
  {
    hide TwoByTwo, FirstUse, GoodSteps, StepField, StepObjects;
    WrittenDigests(t, 0);
    WrittenDigests(t, 1);
    WrittenDigests(t, 2);
    WrittenDigests(t, 3);
    HiddenChain(job, t, 0);
    HiddenChain(job, t, 1);
    StateChain(job, t, 0);
    StateChain(job, t, 1);
    var steps := StepObjects(t.steps);
    assert Strings(t.finalSha256) == [StepField(steps, 2, StateSha256), StepField(steps, 3, StateSha256)];
  }

  lemma {:induction false} WrittenGraph(job: Job, t: Trace, o: Object)
    requires TwoByTwo(job, t) && GoodSteps(StepObjects(t.steps))
    requires Get(o, Steps) == StepObjects(t.steps) && Get(o, SelectedExperts) == Selections(t.selected)
    requires Get(o, FinalStateSha256) == List(Strings(t.finalSha256))
    ensures GoodGraph(o)
  {
    hide TwoByTwo, FirstUse, GoodSteps, StepObject, Union, Same, Chained, StepField;
    StateChain(job, t, 0);
    StateChain(job, t, 1);
    WrittenChained(job, t);
    WrittenUnion(t, 0);
    WrittenUnion(t, 1);
    var steps := StepObjects(t.steps);
    assert Selections(t.selected) == List([Union(steps, 0), Union(steps, 1)]);
    SameReflexive(Selections(t.selected));
    SameReflexive(List(Strings(t.finalSha256)));
  }

  /** What a two-by-two run writes is accepted exactly when every one of its routes has
      sixteen experts and no zero contribution: the chains, the unions and the final
      states always hold. */
  lemma {:induction false} RunIsAccepted(official: Object, job: Job, t: Trace, base: Object, oracle: Json, artifact: Json)
    requires Framed(official) && GoodOfficial(official, base)
    requires TwoByTwo(job, t) && GoodOracle(oracle) && GoodArtifact(artifact)
    ensures Accepted(official, Written(t, base, oracle, artifact)) <==> FullRoutes(job)
  {
    hide TwoByTwo, GoodSteps, GoodOracle, GoodArtifact, FullRoutes, Same, Linked;
    var o := Written(t, base, oracle, artifact);
    WrittenSteps(job, t);
    assert GoodOfficial(official, o) by {
      forall f | f in official ensures Get(o, f) == Get(base, f) {
      }
    }
    assert GoodGraph(o) ==> GoodSteps(Get(o, Steps));
    if GoodSteps(StepObjects(t.steps)) {
      WrittenGraph(job, t, o);
    }
  }
}
