// Planning one routed expert inside an official shard and relocating its bytes
// into a microshard (converter/k3x_converter/official_source.py).

module OfficialSource {
  import opened Arithmetic
  import opened Format
  import opened Intervals
  import opened MoeSource
  import opened RangeObject
  import opened Safetensors
  import opened Struct
  import opened Wrappers

  datatype Role = Gate | Up | Down | Trunk(role: string)

  datatype PlannedTensor = PlannedTensor(
    officialName: string, canonicalName: string, role: Role, dtype: string, shape: seq<int>,
    offset: int, length: int)

  datatype ExpertPlan = ExpertPlan(
    layerId: int, expertId: int, shardPath: string, payloadStart: int, payloadEnd: int,
    payloadBytes: int, indexSha256: Digest, tensors: seq<PlannedTensor>)

  /** The validated header of an official shard. */
  datatype ShardHeader = ShardHeader(shardPath: string, tensors: map<string, TensorMetadata>)

  /** How numbers appear in tensor names. */
  datatype Names = Names(decimal: int -> string) {
    function Official(layerId: int, expertId: int): string {
      "language_model.model.layers." + decimal(layerId) + ".block_sparse_moe.experts." + decimal(expertId)
    }

    function Canonical(layerId: int, expertId: int): string {
      "model.layers." + decimal(layerId) + ".feed_forward.experts." + decimal(expertId)
    }
  }

  datatype Specification = Specification(matrix: string, kind: string, role: Role, shape: seq<int>, length: int)

  const SPECIFICATIONS: seq<Specification> := [
    Specification("w1", "weight_packed", Gate, [3072, 1792], 5_505_024),
    Specification("w1", "weight_scale", Gate, [3072, 112], 344_064),
    Specification("w2", "weight_packed", Down, [3584, 1536], 5_505_024),
    Specification("w2", "weight_scale", Down, [3584, 96], 344_064),
    Specification("w3", "weight_packed", Up, [3072, 1792], 5_505_024),
    Specification("w3", "weight_scale", Up, [3072, 112], 344_064)]

  const EXPERT_PAYLOAD_BYTES := 17_547_264

  function RoleName(role: Role): string {
    match role case Gate => "gate" case Up => "up" case Down => "down" case Trunk(name) => name
  }

  function OfficialName(names: Names, layerId: int, expertId: int, s: Specification): string {
    names.Official(layerId, expertId) + "." + s.matrix + "." + s.kind
  }

  function CanonicalName(names: Names, layerId: int, expertId: int, s: Specification): string {
    names.Canonical(layerId, expertId) + "." + RoleName(s.role) + "." + s.kind
  }

  /** The shard holds the tensor of `s` where the index says, with its exact layout. */
  predicate Listed(weightMap: map<string, string>, header: ShardHeader, name: string, s: Specification) {
    && name in weightMap && weightMap[name] == header.shardPath
    && name in header.tensors
    && header.tensors[name].dtype == "U8"
    && header.tensors[name].shape == s.shape
    && header.tensors[name].length == s.length
  }

  function Planned(names: Names, header: ShardHeader, layerId: int, expertId: int, s: Specification): PlannedTensor
    requires OfficialName(names, layerId, expertId, s) in header.tensors
  {
    var official := OfficialName(names, layerId, expertId, s);
    var m := header.tensors[official];
    PlannedTensor(official, CanonicalName(names, layerId, expertId, s), s.role, m.dtype, m.shape, m.offset, m.length)
  }

  /** Each tensor starts where the one before it ends. */
  predicate Abutting(ts: seq<PlannedTensor>) {
    forall i :: 0 <= i < |ts| - 1 ==> ts[i].offset + ts[i].length == ts[i + 1].offset
  }

  /** The plan's tensors, in order: what the index and header list. */
  ghost predicate PlansExpert(plan: ExpertPlan, names: Names, weightMap: map<string, string>, header: ShardHeader) {
    && |plan.tensors| == 6
    && (forall i :: 0 <= i < 6 ==>
          var name := OfficialName(names, plan.layerId, plan.expertId, SPECIFICATIONS[i]);
          && Listed(weightMap, header, name, SPECIFICATIONS[i])
          && plan.tensors[i] == Planned(names, header, plan.layerId, plan.expertId, SPECIFICATIONS[i]))
    && Abutting(plan.tensors)
    && plan.payloadStart == plan.tensors[0].offset
    && plan.payloadEnd == plan.payloadStart + EXPERT_PAYLOAD_BYTES
    && plan.payloadBytes == EXPERT_PAYLOAD_BYTES
    && plan.shardPath == header.shardPath
  }

  /** The expert can be planned: all six tensors are listed and abut. */
  ghost predicate Plannable(names: Names, weightMap: map<string, string>, header: ShardHeader, layerId: int, expertId: int) {
    && layerId >= 1 && expertId >= 0
    && (forall i :: 0 <= i < 6 ==>
          Listed(weightMap, header, OfficialName(names, layerId, expertId, SPECIFICATIONS[i]), SPECIFICATIONS[i]))
    && forall i :: 0 <= i < 5 ==>
         Planned(names, header, layerId, expertId, SPECIFICATIONS[i]).offset + SPECIFICATIONS[i].length ==
         Planned(names, header, layerId, expertId, SPECIFICATIONS[i + 1]).offset
  }

  method CollectPlanned(names: Names, weightMap: map<string, string>, header: ShardHeader, layerId: int, expertId: int)
    returns (r: Result<seq<PlannedTensor>>)
    ensures r.Ok? <==> forall i :: 0 <= i < 6 ==>
              Listed(weightMap, header, OfficialName(names, layerId, expertId, SPECIFICATIONS[i]), SPECIFICATIONS[i])
    ensures r.Ok? ==> |r.value| == 6 && forall i :: 0 <= i < 6 ==>
              r.value[i] == Planned(names, header, layerId, expertId, SPECIFICATIONS[i])
  {
    hide OfficialName, CanonicalName;
    var planned: seq<PlannedTensor> := [];
    for i := 0 to 6
      invariant |planned| == i
      invariant forall k :: 0 <= k < i ==>
                  && Listed(weightMap, header, OfficialName(names, layerId, expertId, SPECIFICATIONS[k]), SPECIFICATIONS[k])
                  && planned[k] == Planned(names, header, layerId, expertId, SPECIFICATIONS[k])
    {
      var s := SPECIFICATIONS[i];
      if !Listed(weightMap, header, OfficialName(names, layerId, expertId, s), s) {
        return Err(InvalidOfficialExpert);
      }
      planned := planned + [Planned(names, header, layerId, expertId, s)];
    }
    return Ok(planned);
  }

  method PlanExpert(names: Names, weightMap: map<string, string>, indexSha256: Digest, header: ShardHeader,
                    layerId: int, expertId: int)
    returns (r: Result<ExpertPlan>)
    ensures r.Ok? <==> Plannable(names, weightMap, header, layerId, expertId)
    ensures r.Ok? ==>
              && PlansExpert(r.value, names, weightMap, header) && Matched(r.value, names, weightMap, header)
              && r.value.layerId == layerId && r.value.expertId == expertId && r.value.indexSha256 == indexSha256
  {
    hide OfficialName, CanonicalName, Matched;
    if layerId < 1 || expertId < 0 {
      return Err(InvalidOfficialExpert);
    }
    var planned :- CollectPlanned(names, weightMap, header, layerId, expertId);
    var i := 0;
    while i + 1 < |planned|
      invariant forall k :: 0 <= k < i && k + 1 < |planned| ==> planned[k].offset + planned[k].length == planned[k + 1].offset
    {
      if planned[i].offset + planned[i].length != planned[i + 1].offset {
        return Err(InvalidOfficialExpert);
      }
      i := i + 1;
    }
    assert planned[0].length == SPECIFICATIONS[0].length && planned[1].length == SPECIFICATIONS[1].length;
    assert planned[2].length == SPECIFICATIONS[2].length && planned[3].length == SPECIFICATIONS[3].length;
    assert planned[4].length == SPECIFICATIONS[4].length && planned[5].length == SPECIFICATIONS[5].length;
    assert forall k :: 0 <= k < 5 ==> planned[k].offset + planned[k].length == planned[k + 1].offset;
    var payloadStart := planned[0].offset;
    var payloadEnd := planned[5].offset + planned[5].length;
    if payloadEnd - payloadStart != EXPERT_PAYLOAD_BYTES {
      return Err(InvalidOfficialExpert);
    }
    var plan := ExpertPlan(layerId, expertId, header.shardPath, payloadStart, payloadEnd,
                           payloadEnd - payloadStart, indexSha256, planned);
    NamesAreMatched(plan, names, weightMap, header);
    return Ok(plan);
  }

  // ----------------------------------------------------- names and layouts

  /** Tensor `i` of a plan: what the official header calls it, what it is called from then
      on, its role, and the layout both names stand for. */
  ghost predicate Called(plan: ExpertPlan, names: Names, i: nat, official: string, canonical: string, role: Role,
                         shape: seq<int>, length: int)
  {
    && i < |plan.tensors| && var t := plan.tensors[i];
       && t.officialName == names.Official(plan.layerId, plan.expertId) + official
       && t.canonicalName == names.Canonical(plan.layerId, plan.expertId) + canonical
       && t.role == role && t.dtype == "U8" && t.shape == shape && t.length == length
  }

  /** The official header and the index list the tensor, with the place the plan gives it. */
  ghost predicate PlacedByHeader(t: PlannedTensor, weightMap: map<string, string>, header: ShardHeader) {
    && t.officialName in weightMap && weightMap[t.officialName] == header.shardPath
    && t.officialName in header.tensors
    && header.tensors[t.officialName].offset == t.offset && header.tensors[t.officialName].length == t.length
    && header.tensors[t.officialName].shape == t.shape && header.tensors[t.officialName].dtype == t.dtype
  }

  lemma {:induction false} NameAt(plan: ExpertPlan, names: Names, weightMap: map<string, string>, header: ShardHeader, i: nat)
    requires PlansExpert(plan, names, weightMap, header) && i < 6
    ensures |plan.tensors| == 6 && PlacedByHeader(plan.tensors[i], weightMap, header)
    ensures var s := SPECIFICATIONS[i];
            Called(plan, names, i, ("." + s.matrix) + ("." + s.kind), ("." + RoleName(s.role)) + ("." + s.kind), s.role, s.shape, s.length)
  {
    hide Names.Official, Names.Canonical;
    var s := SPECIFICATIONS[i];
    var official := OfficialName(names, plan.layerId, plan.expertId, s);
    assert Listed(weightMap, header, official, s);
    assert plan.tensors[i] == Planned(names, header, plan.layerId, plan.expertId, s);
    assert official == names.Official(plan.layerId, plan.expertId) + (("." + s.matrix) + ("." + s.kind));
    assert CanonicalName(names, plan.layerId, plan.expertId, s) ==
           names.Canonical(plan.layerId, plan.expertId) + (("." + RoleName(s.role)) + ("." + s.kind));
  }

  lemma OfficialGate()
    ensures var a, p, c := "." + SPECIFICATIONS[0].matrix, "." + SPECIFICATIONS[0].kind, "." + SPECIFICATIONS[1].kind;
            a + p == ".w1.weight_packed" && a + c == ".w1.weight_scale"
    ensures SPECIFICATIONS[0].matrix == SPECIFICATIONS[1].matrix && SPECIFICATIONS[0].role == SPECIFICATIONS[1].role
  {
  }

  lemma CanonicalGate()
    ensures var b, p, c := "." + RoleName(SPECIFICATIONS[0].role), "." + SPECIFICATIONS[0].kind, "." + SPECIFICATIONS[1].kind;
            b + p == ".gate.weight_packed" && b + c == ".gate.weight_scale"
  {
  }

  lemma OfficialDown()
    ensures var a, p, c := "." + SPECIFICATIONS[2].matrix, "." + SPECIFICATIONS[2].kind, "." + SPECIFICATIONS[3].kind;
            a + p == ".w2.weight_packed" && a + c == ".w2.weight_scale"
    ensures SPECIFICATIONS[2].matrix == SPECIFICATIONS[3].matrix && SPECIFICATIONS[2].role == SPECIFICATIONS[3].role
  {
  }

  lemma CanonicalDown()
    ensures var b, p, c := "." + RoleName(SPECIFICATIONS[2].role), "." + SPECIFICATIONS[2].kind, "." + SPECIFICATIONS[3].kind;
            b + p == ".down.weight_packed" && b + c == ".down.weight_scale"
  {
  }

  lemma OfficialUp()
    ensures ("." + SPECIFICATIONS[4].matrix) + ("." + SPECIFICATIONS[4].kind) == ".w3.weight_packed"
    ensures SPECIFICATIONS[4].matrix == SPECIFICATIONS[5].matrix && SPECIFICATIONS[4].role == SPECIFICATIONS[5].role
  {
  }

  lemma OfficialUpScale()
    ensures ("." + SPECIFICATIONS[5].matrix) + ("." + SPECIFICATIONS[5].kind) == ".w3.weight_scale"
  {
  }

  lemma CanonicalUp()
    ensures var b, p, c := "." + RoleName(SPECIFICATIONS[4].role), "." + SPECIFICATIONS[4].kind, "." + SPECIFICATIONS[5].kind;
            b + p == ".up.weight_packed" && b + c == ".up.weight_scale"
  {
  }

  lemma {:induction false} GateIsW1(plan: ExpertPlan, names: Names, weightMap: map<string, string>, header: ShardHeader)
    requires PlansExpert(plan, names, weightMap, header)
    ensures Called(plan, names, 0, ".w1.weight_packed", ".gate.weight_packed", Gate, [3072, 1792], 5505024)
    ensures Called(plan, names, 1, ".w1.weight_scale", ".gate.weight_scale", Gate, [3072, 112], 344064)
  {
    hide Names.Official, Names.Canonical, PlansExpert, Called;
    OfficialGate();
    CanonicalGate();
    NameAt(plan, names, weightMap, header, 0);
    NameAt(plan, names, weightMap, header, 1);
  }

  lemma {:induction false} DownIsW2(plan: ExpertPlan, names: Names, weightMap: map<string, string>, header: ShardHeader)
    requires PlansExpert(plan, names, weightMap, header)
    ensures Called(plan, names, 2, ".w2.weight_packed", ".down.weight_packed", Down, [3584, 1536], 5505024)
    ensures Called(plan, names, 3, ".w2.weight_scale", ".down.weight_scale", Down, [3584, 96], 344064)
  {
    hide Names.Official, Names.Canonical, PlansExpert, Called;
    OfficialDown();
    CanonicalDown();
    NameAt(plan, names, weightMap, header, 2);
    NameAt(plan, names, weightMap, header, 3);
  }

  lemma {:induction false} UpIsW3(plan: ExpertPlan, names: Names, weightMap: map<string, string>, header: ShardHeader)
    requires PlansExpert(plan, names, weightMap, header)
    ensures Called(plan, names, 4, ".w3.weight_packed", ".up.weight_packed", Up, [3072, 1792], 5505024)
    ensures Called(plan, names, 5, ".w3.weight_scale", ".up.weight_scale", Up, [3072, 112], 344064)
  {
    hide Names.Official, Names.Canonical, PlansExpert, Called;
    OfficialUp();
    OfficialUpScale();
    CanonicalUp();
    NameAt(plan, names, weightMap, header, 4);
    NameAt(plan, names, weightMap, header, 5);
  }

  /** w1 is the gate, w2 the down and w3 the up projection; each has weights and scales. */
  ghost predicate Matched(plan: ExpertPlan, names: Names, weightMap: map<string, string>, header: ShardHeader) {
    && Called(plan, names, 0, ".w1.weight_packed", ".gate.weight_packed", Gate, [3072, 1792], 5505024)
    && Called(plan, names, 1, ".w1.weight_scale", ".gate.weight_scale", Gate, [3072, 112], 344064)
    && Called(plan, names, 2, ".w2.weight_packed", ".down.weight_packed", Down, [3584, 1536], 5505024)
    && Called(plan, names, 3, ".w2.weight_scale", ".down.weight_scale", Down, [3584, 96], 344064)
    && Called(plan, names, 4, ".w3.weight_packed", ".up.weight_packed", Up, [3072, 1792], 5505024)
    && Called(plan, names, 5, ".w3.weight_scale", ".up.weight_scale", Up, [3072, 112], 344064)
    && |plan.tensors| == 6 && forall i :: 0 <= i < 6 ==> PlacedByHeader(plan.tensors[i], weightMap, header)
  }

  lemma {:induction false} NamesAreMatched(plan: ExpertPlan, names: Names, weightMap: map<string, string>, header: ShardHeader)
    requires PlansExpert(plan, names, weightMap, header)
    ensures Matched(plan, names, weightMap, header)
  {
    hide Names.Official, Names.Canonical, PlansExpert, Called, PlacedByHeader;
    GateIsW1(plan, names, weightMap, header);
    DownIsW2(plan, names, weightMap, header);
    UpIsW3(plan, names, weightMap, header);
    NameAt(plan, names, weightMap, header, 0);
    forall i | 0 <= i < 6 ensures PlacedByHeader(plan.tensors[i], weightMap, header) {
      NameAt(plan, names, weightMap, header, i);
    }
  }

  /** No canonical name is reserved. */
  lemma {:induction false} CanonicalIsFree(plan: ExpertPlan, names: Names, weightMap: map<string, string>, header: ShardHeader, i: nat)
    requires PlansExpert(plan, names, weightMap, header) && i < 6
    ensures |plan.tensors| == 6 && !("__" <= plan.tensors[i].canonicalName)
  {
    hide PlansExpert;
    NameAt(plan, names, weightMap, header, i);
    StartsWithModel(names, plan.layerId, plan.expertId);
    assert plan.tensors[i].canonicalName[0] == names.Canonical(plan.layerId, plan.expertId)[0];
  }

  lemma StartsWithModel(names: Names, layerId: int, expertId: int)
    ensures |names.Canonical(layerId, expertId)| > 0 && names.Canonical(layerId, expertId)[0] == 'm'
  {
  }

  // ------------------------------------------------------------ relocation

  /** What a planned expert's tensors are, by position. */
  lemma {:induction false} PlannedAt(plan: ExpertPlan, names: Names, weightMap: map<string, string>, header: ShardHeader)
    requires PlansExpert(plan, names, weightMap, header)
    ensures forall i :: 0 <= i < 6 ==>
              && plan.tensors[i].role == SPECIFICATIONS[i].role
              && plan.tensors[i].dtype == "U8"
              && plan.tensors[i].shape == SPECIFICATIONS[i].shape
              && plan.tensors[i].length == SPECIFICATIONS[i].length
              && plan.tensors[i].canonicalName == CanonicalName(names, plan.layerId, plan.expertId, SPECIFICATIONS[i])
  {
    hide OfficialName, CanonicalName;
    forall i | 0 <= i < 6
      ensures plan.tensors[i] == Planned(names, header, plan.layerId, plan.expertId, SPECIFICATIONS[i])
      ensures plan.tensors[i].shape == SPECIFICATIONS[i].shape && plan.tensors[i].length == SPECIFICATIONS[i].length
      ensures plan.tensors[i].dtype == "U8"
    {
      var name := OfficialName(names, plan.layerId, plan.expertId, SPECIFICATIONS[i]);
      assert Listed(weightMap, header, name, SPECIFICATIONS[i]);
    }
  }

  /** A planned tensor as a piece of the expert's payload. */
  function Relocated(t: PlannedTensor, path: DataName, payloadStart: int): SourceTensor {
    SourceTensor(t.canonicalName, t.dtype, t.shape, path, t.offset - payloadStart, t.length, Option.None)
  }

  function Relocate(ts: seq<PlannedTensor>, path: DataName, payloadStart: int): (r: seq<SourceTensor>)
    ensures |r| == |ts| && forall i :: 0 <= i < |ts| ==> r[i] == Relocated(ts[i], path, payloadStart)
  {
    seq(|ts|, i requires 0 <= i < |ts| => Relocated(ts[i], path, payloadStart))
  }

  /** Because the tensors abut, the running offset of the microshard header equals
      the offset relative to the payload. */
  lemma {:induction false} CumulativeIsRelative(ts: seq<PlannedTensor>, path: DataName, start: int, i: nat)
    requires Abutting(ts) && i < |ts| && start == ts[0].offset
    ensures Total(Relocate(ts, path, start)[..i]) == ts[i].offset - start
  {
    var r := Relocate(ts, path, start);
    if i > 0 {
      CumulativeIsRelative(ts, path, start, i - 1);
      assert r[..i][..i - 1] == r[..i - 1];
      assert ts[i - 1].offset + ts[i - 1].length == ts[i - 1 + 1].offset;
    }
  }

  lemma {:induction false} AbuttingStart(ts: seq<PlannedTensor>, i: nat)
    requires Abutting(ts) && i < |ts| && forall k :: 0 <= k < |ts| ==> ts[k].length > 0
    ensures ts[0].offset <= ts[i].offset
  {
    if i > 0 {
      AbuttingStart(ts, i - 1);
      assert ts[i - 1].offset + ts[i - 1].length == ts[i - 1 + 1].offset;
    }
  }

  lemma {:induction false} AbuttingEnd(ts: seq<PlannedTensor>, i: nat)
    requires Abutting(ts) && i < |ts| && forall k :: 0 <= k < |ts| ==> ts[k].length > 0
    ensures ts[i].offset + ts[i].length <= ts[|ts| - 1].offset + ts[|ts| - 1].length
    decreases |ts| - i
  {
    if i + 1 < |ts| {
      AbuttingEnd(ts, i + 1);
      assert ts[i].offset + ts[i].length == ts[i + 1].offset;
    }
  }

  /** The six tensors of a planned expert, relocated into its payload object, can
      be assembled. */
  lemma {:induction false} RelocatedAreGood(plan: ExpertPlan, names: Names, weightMap: map<string, string>,
                                            header: ShardHeader, path: DataName, objects: Objects, i: nat)
    requires PlansExpert(plan, names, weightMap, header) && i < 6
    requires path in objects && |objects[path]| == plan.payloadBytes
    ensures GoodTensor(Relocated(plan.tensors[i], path, plan.payloadStart), objects)
  {
    var t := plan.tensors[i];
    PlannedAt(plan, names, weightMap, header);
    AbuttingStart(plan.tensors, i);
    AbuttingEnd(plan.tensors, i);
    LastEnds(plan, names, weightMap, header);
    ShapeProducts(i);
    assert t.canonicalName != "";
  }

  lemma {:induction false} LastEnds(plan: ExpertPlan, names: Names, weightMap: map<string, string>, header: ShardHeader)
    requires PlansExpert(plan, names, weightMap, header)
    ensures plan.tensors[5].offset + plan.tensors[5].length == plan.payloadEnd
  {
    hide OfficialName, CanonicalName, Listed;
    var ts := plan.tensors;
    PlannedAt(plan, names, weightMap, header);
    assert ts[0].offset + ts[0].length == ts[1].offset && ts[1].offset + ts[1].length == ts[2].offset;
    assert ts[2].offset + ts[2].length == ts[3].offset && ts[3].offset + ts[3].length == ts[4].offset;
    assert ts[4].offset + ts[4].length == ts[5].offset;
  }

  lemma {:induction false} ShapeProducts(i: nat)
    requires i < 6
    ensures Product(SPECIFICATIONS[i].shape) == SPECIFICATIONS[i].length
    ensures SPECIFICATIONS[i].shape != [] && forall d :: d in SPECIFICATIONS[i].shape ==> d > 0
  {
    var shape := SPECIFICATIONS[i].shape;
    assert |shape| == 2;
    assert shape == [shape[0], shape[1]];
    assert Product(shape[..1]) == shape[0] by {
      assert shape[..1][..0] == [];
    }
    assert shape[..|shape| - 1] == shape[..1];
  }

  lemma {:induction false} CanonicalDistinct(names: Names, layerId: int, expertId: int, i: nat, j: nat)
    requires i < j < 6
    ensures CanonicalName(names, layerId, expertId, SPECIFICATIONS[i]) !=
            CanonicalName(names, layerId, expertId, SPECIFICATIONS[j])
  {
    hide Names.Canonical, RoleName;
    var base := names.Canonical(layerId, expertId);
    var a, b := SPECIFICATIONS[i], SPECIFICATIONS[j];
    var x, y := "." + RoleName(a.role) + "." + a.kind, "." + RoleName(b.role) + "." + b.kind;
    assert CanonicalName(names, layerId, expertId, a) == base + x;
    assert CanonicalName(names, layerId, expertId, b) == base + y;
    assert (base + x)[|base|..] == x && (base + y)[|base|..] == y;
    RoleHeads();
    KindLengths(i);
    KindLengths(j);
    if a.role == b.role {
      assert |x| != |y|;
    } else {
      assert x[1] == RoleName(a.role)[0] && y[1] == RoleName(b.role)[0];
    }
  }

  lemma RoleHeads()
    ensures |RoleName(Gate)| == |RoleName(Down)| == 4 && |RoleName(Up)| == 2
    ensures RoleName(Gate)[0] == 'g' && RoleName(Down)[0] == 'd' && RoleName(Up)[0] == 'u'
  {
  }

  lemma KindLengths(i: nat)
    requires i < 6
    ensures SPECIFICATIONS[i].role == if i < 2 then Gate else if i < 4 then Down else Up
    ensures |SPECIFICATIONS[i].kind| == if i % 2 == 0 then 13 else 12
  {
  }

  lemma {:induction false} ExpertAssemblable(plan: ExpertPlan, names: Names, weightMap: map<string, string>,
                                             header: ShardHeader, path: DataName, objects: Objects)
    requires PlansExpert(plan, names, weightMap, header)
    requires path in objects && |objects[path]| == plan.payloadBytes
    ensures Assemblable(Relocate(plan.tensors, path, plan.payloadStart), objects)
  {
    hide GoodTensor, CanonicalName, OfficialName;
    var r := Relocate(plan.tensors, path, plan.payloadStart);
    PlannedAt(plan, names, weightMap, header);
    forall i | 0 <= i < 6 ensures GoodTensor(r[i], objects) {
      RelocatedAreGood(plan, names, weightMap, header, path, objects, i);
    }
    forall i, j | 0 <= i < j < 6 ensures r[i].name != r[j].name {
      CanonicalDistinct(names, plan.layerId, plan.expertId, i, j);
    }
  }

  lemma {:induction false} PieceJoins(item: SourceTensor, objects: Objects)
    requires GoodTensor(item, objects)
    ensures var o := objects[item.objectPath];
            && item.objectOffset + item.length <= |o|
            && o[..item.objectOffset] + Piece(item, objects) == o[..item.objectOffset + item.length]
  {
    hide Product, KnownDtypeBytes;
    Join(objects[item.objectPath], item.objectOffset, item.objectOffset + item.length);
  }

  /** The pieces of the expert, end to end, are its payload. */
  lemma {:induction false} WholePayload(ts: seq<PlannedTensor>, path: DataName, start: int, objects: Objects, i: nat)
    requires Abutting(ts) && i <= |ts| && ts != [] && start == ts[0].offset && path in objects
    requires forall k :: 0 <= k < |ts| ==> GoodTensor(Relocated(ts[k], path, start), objects)
    ensures var r, t := Relocate(ts, path, start), Total(Relocate(ts, path, start)[..i]);
            && 0 <= t <= |objects[path]|
            && Payload(r[..i], objects) == objects[path][..t]
            && (0 < i ==> t == ts[i - 1].offset + ts[i - 1].length - start)
  {
    hide Product, KnownDtypeBytes;
    var r := Relocate(ts, path, start);
    if i > 0 {
      hide Total, HeaderOf, Payload, GoodTensor;
      WholePayload(ts, path, start, objects, i - 1);
      CumulativeIsRelative(ts, path, start, i - 1);
      PrefixSteps(r, objects, i - 1);
      var item := r[i - 1];
      assert GoodTensor(item, objects) && item.objectOffset == Total(r[..i - 1]);
      PieceJoins(item, objects);
    }
  }

  /** The expert's tensors are exactly its payload, in order and without gaps. */
  lemma {:induction false} ExpertCoversPayload(plan: ExpertPlan, names: Names, weightMap: map<string, string>,
                                               header: ShardHeader, path: DataName, objects: Objects)
    requires PlansExpert(plan, names, weightMap, header)
    requires path in objects && |objects[path]| == plan.payloadBytes
    ensures var r := Relocate(plan.tensors, path, plan.payloadStart);
            Assemblable(r, objects) && Payload(r, objects) == objects[path] && Total(r) == plan.payloadBytes
  {
    hide GoodTensor, CanonicalName, OfficialName, Payload, Total;
    var r := Relocate(plan.tensors, path, plan.payloadStart);
    ExpertAssemblable(plan, names, weightMap, header, path, objects);
    forall k | 0 <= k < 6 ensures GoodTensor(Relocated(plan.tensors[k], path, plan.payloadStart), objects) {
      assert GoodTensor(r[k], objects);
    }
    WholePayload(plan.tensors, path, plan.payloadStart, objects, 6);
    LastEnds(plan, names, weightMap, header);
    assert r[..6] == r && objects[path][..plan.payloadBytes] == objects[path];
  }

  // ------------------------------------------------------------ microshard

  /** Header prefix, then the payload in bounded chunks. */
  method WriteMicroshard(prefix: Bytes, payload: Bytes, chunkBytes: int) returns (output: Bytes, maximumChunk: nat)
    requires chunkBytes > 0
    ensures output == prefix + payload
    ensures maximumChunk == Min(chunkBytes, |payload|)
  {
    output, maximumChunk := prefix, 0;
    var offset := 0;
    while offset < |payload|
      invariant 0 <= offset <= |payload| && output == prefix + payload[..offset]
      invariant maximumChunk == if offset == 0 then 0 else Min(chunkBytes, |payload|)
    {
      var count := Min(chunkBytes, |payload| - offset);
      output := output + payload[offset..offset + count];
      maximumChunk := Max(maximumChunk, count);
      offset := offset + count;
    }
  }

  /** The microshard header: every tensor at the running cursor. */
  method MicroshardHeader(ts: seq<PlannedTensor>, ghost path: DataName, ghost start: int) returns (header: Header)
    ensures header == HeaderOf(Relocate(ts, path, start))
  {
    hide HeaderOf, Total, Payload;
    ghost var r := Relocate(ts, path, start);
    header := [];
    var cursor := 0;
    StartOfHeader(r);
    for i := 0 to |ts|
      invariant header == HeaderOf(r[..i]) && cursor == Total(r[..i])
    {
      PrefixSteps(r, map[], i);
      header := header + [(ts[i].canonicalName, Tensor(ts[i].dtype, ts[i].shape, cursor, cursor + ts[i].length))];
      cursor := cursor + ts[i].length;
    }
    assert r[..|ts|] == r;
  }

  lemma StartOfHeader(r: seq<SourceTensor>)
    ensures HeaderOf(r[..0]) == [] && Total(r[..0]) == 0
  {
  }

  /** The digest of every tensor, each cut out of the payload. */
  method TensorDigests(plan: ExpertPlan, payload: Bytes, sha: Bytes -> Bytes,
                       ghost names: Names, ghost weightMap: map<string, string>, ghost header: ShardHeader, ghost shard: Bytes)
    returns (digests: seq<Bytes>)
    requires PlansExpert(plan, names, weightMap, header)
    requires 0 <= plan.payloadStart && plan.payloadEnd <= |shard| && payload == shard[plan.payloadStart..plan.payloadEnd]
    ensures |digests| == 6
    ensures forall i :: 0 <= i < 6 ==>
              && 0 <= plan.tensors[i].offset && 0 <= plan.tensors[i].length
              && plan.tensors[i].offset + plan.tensors[i].length <= |shard|
              && digests[i] == sha(shard[plan.tensors[i].offset..plan.tensors[i].offset + plan.tensors[i].length])
  {
    hide CanonicalName, OfficialName, Product;
    digests := [];
    ghost var path := Blob([]);
    for i := 0 to 6
      invariant |digests| == i
      invariant forall k :: 0 <= k < i ==>
                  && 0 <= plan.tensors[k].offset && 0 <= plan.tensors[k].length
                  && plan.tensors[k].offset + plan.tensors[k].length <= |shard|
                  && digests[k] == sha(shard[plan.tensors[k].offset..plan.tensors[k].offset + plan.tensors[k].length])
    {
      var tensor := plan.tensors[i];
      RelocatedAreGood(plan, names, weightMap, header, path, map[path := payload], i);
      var start := tensor.offset - plan.payloadStart;
      SliceOfSlice(shard, plan.payloadStart, plan.payloadEnd, start, start + tensor.length);
      digests := digests + [sha(payload[start..start + tensor.length])];
    }
  }

  datatype Microshard = Microshard(file: Bytes, payload: Bytes, tensorSha256: seq<Bytes>, maximumChunk: nat)

  const PAYLOAD_LIMIT: int := 32 * 1024 * 1024

  /** The slice can be fetched: a pinned file of the snapshot holds the range and the
      next response carries it. */
  ghost predicate Fetchable(snapshot: Snapshot, plan: ExpertPlan, transport: Transport, n: nat) {
    && plan.shardPath in snapshot.files && snapshot.files[plan.shardPath].lfs.Some?
    && var size := snapshot.files[plan.shardPath].size;
       var q := Request(snapshot.revision, plan.shardPath, plan.payloadStart, plan.payloadEnd - 1);
       0 <= plan.payloadStart && plan.payloadEnd <= size && Accepted(q, size, transport.respond(n, q))
  }

  /** Fetch an expert's payload and lay it behind a header of cumulative offsets.
      `encode` prints the header with sorted keys and pads it. */
  method MaterializeExpertSlice(snapshot: Snapshot, plan: ExpertPlan, transport: Transport, chunkBytes: int,
                                encode: JsonEncoder, sha: Bytes -> Bytes,
                                ghost names: Names, ghost weightMap: map<string, string>, ghost header: ShardHeader,
                                ghost w: World)
    returns (o: Outcome<Microshard>)
    requires PlansExpert(plan, names, weightMap, header) && transport.Honest(w)
    modifies transport
    ensures !o.Killed?
    ensures o.Done? <==> chunkBytes > 0 && Fetchable(snapshot, plan, transport, old(transport.calls))
    ensures o.Done? ==>
              var shard := w.shard(snapshot.revision, plan.shardPath);
              && 0 <= plan.payloadStart && plan.payloadEnd <= |shard|
              && o.value.payload == shard[plan.payloadStart..plan.payloadEnd]
              && var path := Blob(sha(o.value.payload));
                 var objects, r := map[path := o.value.payload], Relocate(plan.tensors, path, plan.payloadStart);
                 Assemblable(r, objects) && o.value.file == ShardBytes(r, objects, encode)
    ensures o.Done? ==>
              var shard := w.shard(snapshot.revision, plan.shardPath);
              && |o.value.tensorSha256| == 6 && o.value.maximumChunk == Min(chunkBytes, plan.payloadBytes)
              && forall i :: 0 <= i < 6 ==>
                   && 0 <= plan.tensors[i].offset && 0 <= plan.tensors[i].length
                   && plan.tensors[i].offset + plan.tensors[i].length <= |shard|
                   && o.value.tensorSha256[i] ==
                      sha(shard[plan.tensors[i].offset..plan.tensors[i].offset + plan.tensors[i].length])
  {
    hide GoodTensor, CanonicalName, OfficialName, Payload, Total, HeaderOf, LittleEndian, Abutting;
    if chunkBytes <= 0 {
      return Raised(InvalidChunkSize);
    }
    if plan.payloadBytes > PAYLOAD_LIMIT {
      return Raised(OfficialBodyLimit);
    }
    if plan.shardPath !in snapshot.files || snapshot.files[plan.shardPath].lfs.None? {
      return Raised(InvalidOfficialFile);
    }
    var size := snapshot.files[plan.shardPath].size;
    var payload :- FetchExactRange(snapshot.revision, plan.shardPath, size, transport, plan.payloadStart, plan.payloadEnd - 1);
    ghost var shard := w.shard(snapshot.revision, plan.shardPath);
    var digests := TensorDigests(plan, payload, sha, names, weightMap, header, shard);
    ghost var path := Blob(sha(payload));
    ExpertCoversPayload(plan, names, weightMap, header, path, map[path := payload]);
    var members := MicroshardHeader(plan.tensors, path, plan.payloadStart);
    var encoded := encode(members);
    var output, maximum := WriteMicroshard(LittleEndian(|encoded|, 8) + encoded, payload, chunkBytes);
    return Done(Microshard(output, payload, digests, maximum));
  }

  /** The shard file is accepted and its tensor of that name is the official one,
      byte for byte. */
  ghost predicate HoldsTensor(file: Bytes, decode: JsonDecoder, t: PlannedTensor, shard: Bytes) {
    && AcceptsShard(file, decode)
    && t.canonicalName in ShardTensors(file, decode)
    && var m := ShardTensors(file, decode)[t.canonicalName];
       && m.dtype == t.dtype && m.shape == t.shape && m.length == t.length
       && 0 <= m.offset && 0 <= m.length && m.offset + m.length <= |file|
       && 0 <= t.offset && t.offset + t.length <= |shard|
       && file[m.offset..m.offset + m.length] == shard[t.offset..t.offset + t.length]
  }

  /** A tensor assembled from official bytes reads back as official bytes. */
  lemma {:induction false} AssembledHolds(tensors: seq<SourceTensor>, objects: Objects, encode: JsonEncoder,
                                          decode: JsonDecoder, k: nat, t: PlannedTensor, shard: Bytes)
    requires Assemblable(tensors, objects) && k < |tensors| && |encode(HeaderOf(tensors))| < Pow256(8)
    requires PrintsBack(encode, decode, HeaderOf(tensors)) && AcceptsShard(ShardBytes(tensors, objects, encode), decode)
    requires tensors[k].name == t.canonicalName && tensors[k].dtype == t.dtype
    requires tensors[k].shape == t.shape && tensors[k].length == t.length
    requires 0 <= t.offset && 0 <= t.length && t.offset + t.length <= |shard|
    requires GoodTensor(tensors[k], objects) ==> Piece(tensors[k], objects) == shard[t.offset..t.offset + t.length]
    ensures HoldsTensor(ShardBytes(tensors, objects, encode), decode, t, shard)
  {
    hide HeaderOf, Pow256, AcceptsShard, ShardTensors, ShardBytes, PrintsBack, Product;
    AssembledReadsBack(tensors, objects, encode, decode, k);
    assert GoodTensor(tensors[k], objects);
  }

  /** Expert relocation is exact: each tensor read from the microshard is the
      official bytes of that tensor. */
  lemma {:induction false} MicroshardHasOfficialBytes(
      plan: ExpertPlan, names: Names, weightMap: map<string, string>, header: ShardHeader,
      shard: Bytes, path: DataName, encode: JsonEncoder, decode: JsonDecoder, i: nat)
    requires PlansExpert(plan, names, weightMap, header) && i < 6
    requires 0 <= plan.payloadStart && plan.payloadEnd <= |shard|
    requires var r := Relocate(plan.tensors, path, plan.payloadStart);
             && |encode(HeaderOf(r))| <= MAX_HEADER_BYTES && PrintsBack(encode, decode, HeaderOf(r))
    ensures var objects := map[path := shard[plan.payloadStart..plan.payloadEnd]];
            var r := Relocate(plan.tensors, path, plan.payloadStart);
            Assemblable(r, objects) && HoldsTensor(ShardBytes(r, objects, encode), decode, plan.tensors[i], shard)
  {
    hide CanonicalName, OfficialName, Payload, Total, HeaderOf, Pow256, AcceptsShard, ShardTensors, ShardBytes, Product;
    var payload := shard[plan.payloadStart..plan.payloadEnd];
    var objects, r := map[path := payload], Relocate(plan.tensors, path, plan.payloadStart);
    ExpertAssemblable(plan, names, weightMap, header, path, objects);
    ModulusIsPow(U64);
    forall k | 0 <= k < 6 ensures !("__" <= r[k].name) {
      CanonicalIsFree(plan, names, weightMap, header, k);
    }
    AssembledIsAccepted(r, objects, encode, decode);
    var t := plan.tensors[i];
    assert GoodTensor(r[i], objects);
    SliceOfSlice(shard, plan.payloadStart, plan.payloadEnd,
                 t.offset - plan.payloadStart, t.offset - plan.payloadStart + t.length);
    AssembledHolds(r, objects, encode, decode, i, t, shard);
  }

  /** Under the canonical name the file holds what the official header gives to the
      official one. */
  ghost predicate Files(file: Bytes, decode: JsonDecoder, canonical: string, shard: Bytes, header: ShardHeader, official: string) {
    && AcceptsShard(file, decode) && canonical in ShardTensors(file, decode) && official in header.tensors
    && var m, h := ShardTensors(file, decode)[canonical], header.tensors[official];
       && m.dtype == h.dtype && m.shape == h.shape && m.length == h.length
       && 0 <= m.offset && 0 <= m.length && m.offset + m.length <= |file|
       && 0 <= h.offset && h.offset + h.length <= |shard|
       && file[m.offset..m.offset + m.length] == shard[h.offset..h.offset + h.length]
  }

  /** In the microshard of an expert, gate is w1, down is w2 and up is w3, byte for byte. */
  lemma {:induction false} MicroshardFilesByRole(
      plan: ExpertPlan, names: Names, weightMap: map<string, string>, header: ShardHeader,
      shard: Bytes, path: DataName, encode: JsonEncoder, decode: JsonDecoder)
    requires PlansExpert(plan, names, weightMap, header)
    requires 0 <= plan.payloadStart && plan.payloadEnd <= |shard|
    requires var r := Relocate(plan.tensors, path, plan.payloadStart);
             |encode(HeaderOf(r))| <= MAX_HEADER_BYTES && PrintsBack(encode, decode, HeaderOf(r))
    ensures var objects := map[path := shard[plan.payloadStart..plan.payloadEnd]];
            var r := Relocate(plan.tensors, path, plan.payloadStart);
            var official, canonical := names.Official(plan.layerId, plan.expertId), names.Canonical(plan.layerId, plan.expertId);
            Assemblable(r, objects) &&
            var file := ShardBytes(r, objects, encode);
            && Files(file, decode, canonical + ".gate.weight_packed", shard, header, official + ".w1.weight_packed")
            && Files(file, decode, canonical + ".gate.weight_scale", shard, header, official + ".w1.weight_scale")
            && Files(file, decode, canonical + ".down.weight_packed", shard, header, official + ".w2.weight_packed")
            && Files(file, decode, canonical + ".down.weight_scale", shard, header, official + ".w2.weight_scale")
            && Files(file, decode, canonical + ".up.weight_packed", shard, header, official + ".w3.weight_packed")
            && Files(file, decode, canonical + ".up.weight_scale", shard, header, official + ".w3.weight_scale")
  {
    hide HeaderOf, AcceptsShard, ShardTensors, ShardBytes, PrintsBack, GoodTensor, OfficialName, CanonicalName, Listed;
    hide Names.Official, Names.Canonical, PlacedByHeader, HoldsTensor, Files, Abutting, Planned;
    NamesAreMatched(plan, names, weightMap, header);
    var objects := map[path := shard[plan.payloadStart..plan.payloadEnd]];
    var r := Relocate(plan.tensors, path, plan.payloadStart);
    forall i | 0 <= i < 6
      ensures Assemblable(r, objects) && plan.tensors[i].officialName in header.tensors
      ensures Files(ShardBytes(r, objects, encode), decode, plan.tensors[i].canonicalName, shard, header, plan.tensors[i].officialName)
    {
      MicroshardHasOfficialBytes(plan, names, weightMap, header, shard, path, encode, decode, i);
      HeldIsFiled(ShardBytes(r, objects, encode), decode, plan.tensors[i], shard, weightMap, header);
    }
  }

  lemma HeldIsFiled(file: Bytes, decode: JsonDecoder, t: PlannedTensor, shard: Bytes, weightMap: map<string, string>, header: ShardHeader)
    requires HoldsTensor(file, decode, t, shard) && PlacedByHeader(t, weightMap, header)
    ensures t.officialName in header.tensors && Files(file, decode, t.canonicalName, shard, header, t.officialName)
  {
  }
}
