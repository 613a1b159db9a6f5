// From fetched objects to the ordered tensor list of the MoE source
// (build_official_moe_source_tensors, converter/k3x_converter/official_moe.py),
// and the path of one official byte through fetch, build, assembly and parse.

module OfficialMoe {
  import opened Arithmetic
  import opened Format
  import opened Intervals
  import opened MoeSource
  import opened OfficialSource
  import opened RangeObject
  import opened Safetensors
  import opened Struct
  import opened Wrappers

  /** A dictionary with integer keys, which remembers insertion order. */
  datatype Dict<+V> = Dict(keys: seq<int>, values: map<int, V>) {
    ghost predicate Valid() {
      && (forall i, j :: 0 <= i < j < |keys| ==> keys[i] != keys[j])
      && forall k :: k in keys <==> k in values
    }
  }

  datatype MoePlan = MoePlan(layerId: int, shardPath: string, indexSha256: Digest, alwaysActive: seq<PlannedTensor>)

  type AlwaysObjects = map<string, MaterializedRangeObject>

  function OfficialNames(ts: seq<PlannedTensor>): set<string> {
    set t | t in ts :: t.officialName
  }

  /** A tensor, the object that holds it, where in the shard that object begins, and
      the shape the tensor unpacks to. */
  datatype Placement = Placement(
    tensor: PlannedTensor, source: MaterializedRangeObject, start: int, packed: Option<seq<int>>)

  function AsSource(p: Placement): SourceTensor {
    Relocated(p.tensor, p.source.path, p.start).(packedShape := p.packed)
  }

  /** What a packed weight of a role unpacks to. */
  function PackedShape(role: Role): seq<int> {
    if role == Down then [3584, 3072] else [3072, 3584]
  }

  function Unpacked(t: PlannedTensor): Option<seq<int>> {
    if EndsWith(t.canonicalName, PACKED) then Some(PackedShape(t.role)) else Option.None
  }

  function AsSources(ps: seq<Placement>): (r: seq<SourceTensor>)
    ensures |r| == |ps| && forall i :: 0 <= i < |ps| ==> r[i] == AsSource(ps[i])
  {
    seq(|ps|, i requires 0 <= i < |ps| => AsSource(ps[i]))
  }

  // ------------------------------------------------------- one expert

  function ByRole(ts: seq<PlannedTensor>, role: Role): seq<PlannedTensor> {
    if ts == [] then [] else
      ByRole(ts[..|ts| - 1], role) + (if ts[|ts| - 1].role == role then [ts[|ts| - 1]] else [])
  }

  /** Gate, then up, then down. */
  function ExecutionOrder(ts: seq<PlannedTensor>): seq<PlannedTensor> {
    ByRole(ts, Gate) + ByRole(ts, Up) + ByRole(ts, Down)
  }

  function PlacedIn(ts: seq<PlannedTensor>, source: MaterializedRangeObject, start: int): (r: seq<Placement>)
    ensures |r| == |ts| && forall i :: 0 <= i < |ts| ==> r[i] == Placement(ts[i], source, start, Unpacked(ts[i]))
  {
    seq(|ts|, i requires 0 <= i < |ts| => Placement(ts[i], source, start, Unpacked(ts[i])))
  }

  predicate GoodExpert(plan: MoePlan, expertId: int, expert: ExpertPlan, source: MaterializedRangeObject) {
    && expert.layerId == plan.layerId && expert.expertId == expertId
    && expert.shardPath == plan.shardPath && expert.indexSha256 == plan.indexSha256
    && source.length == expert.payloadBytes
    && |ByRole(expert.tensors, Gate)| == |ByRole(expert.tensors, Up)| == |ByRole(expert.tensors, Down)| == 2
  }

  // ------------------------------------------------------- the whole list

  function AlwaysPlacement(item: PlannedTensor, objects: AlwaysObjects): seq<Placement> {
    if item.officialName in objects then [Placement(item, objects[item.officialName], item.offset, Option.None)] else []
  }

  function AlwaysPlacements(items: seq<PlannedTensor>, objects: AlwaysObjects): seq<Placement> {
    if items == [] then [] else
      AlwaysPlacements(items[..|items| - 1], objects) + AlwaysPlacement(items[|items| - 1], objects)
  }

  function ExpertPlacement(id: int, plans: Dict<ExpertPlan>, objects: Dict<MaterializedRangeObject>): seq<Placement> {
    if id in plans.values && id in objects.values
    then PlacedIn(ExecutionOrder(plans.values[id].tensors), objects.values[id], plans.values[id].payloadStart)
    else []
  }

  function ExpertPlacements(ids: seq<int>, plans: Dict<ExpertPlan>, objects: Dict<MaterializedRangeObject>): seq<Placement> {
    if ids == [] then [] else
      ExpertPlacements(ids[..|ids| - 1], plans, objects) + ExpertPlacement(ids[|ids| - 1], plans, objects)
  }

  function Head(plan: MoePlan): seq<PlannedTensor> {
    plan.alwaysActive[..Min(6, |plan.alwaysActive|)]
  }

  function Tail(plan: MoePlan): seq<PlannedTensor> {
    plan.alwaysActive[Min(6, |plan.alwaysActive|)..]
  }

  /** Six shared tensors, the experts in selection order, the remaining shared tensors. */
  function Placements(plan: MoePlan, selected: seq<int>, plans: Dict<ExpertPlan>,
                      always: AlwaysObjects, objects: Dict<MaterializedRangeObject>): seq<Placement>
  {
    AlwaysPlacements(Head(plan), always) + ExpertPlacements(selected, plans, objects) +
    AlwaysPlacements(Tail(plan), always)
  }

  /** The object sets match the plan and the route, and every object has the
      length of what it stands for. */
  ghost predicate GoodObjects(plan: MoePlan, selected: seq<int>, plans: Dict<ExpertPlan>,
                              always: AlwaysObjects, objects: Dict<MaterializedRangeObject>)
  {
    && plans.keys == selected && objects.keys == selected
    && always.Keys == OfficialNames(plan.alwaysActive)
    && (forall item :: item in plan.alwaysActive ==>
          item.officialName in always && always[item.officialName].length == item.length)
    && (forall id :: id in selected ==>
          && id in plans.values && id in objects.values
          && GoodExpert(plan, id, plans.values[id], objects.values[id]))
  }

  method AddAlways(items: seq<PlannedTensor>, always: AlwaysObjects) returns (r: Result<seq<SourceTensor>>)
    requires forall item :: item in items ==> item.officialName in always
    ensures r.Ok? <==> forall item :: item in items ==> always[item.officialName].length == item.length
    ensures r.Ok? ==> r.value == AsSources(AlwaysPlacements(items, always))
  {
    var result: seq<SourceTensor> := [];
    for i := 0 to |items|
      invariant forall k :: 0 <= k < i ==> always[items[k].officialName].length == items[k].length
      invariant result == AsSources(AlwaysPlacements(items[..i], always))
    {
      var item := items[i];
      assert items[..i + 1][..i] == items[..i];
      var materialized := always[item.officialName];
      if materialized.length != item.length {
        return Err(InvalidOfficialMoeObjectSet);
      }
      result := result + [SourceTensor(item.canonicalName, item.dtype, item.shape, materialized.path, 0, item.length,
                                       Option.None)];
    }
    assert items[..|items|] == items;
    return Ok(result);
  }

  /** The tensors of one role, each with the shape the role unpacks to if it is packed. */
  method AddRole(expert: ExpertPlan, role: Role, source: MaterializedRangeObject) returns (result: seq<SourceTensor>)
    ensures result == AsSources(PlacedIn(ByRole(expert.tensors, role), source, expert.payloadStart))
  {
    hide ByRole, EndsWith, PackedShape;
    var items := ByRole(expert.tensors, role);
    MembersHaveRole(expert.tensors, role);
    result := [];
    for k := 0 to |items|
      invariant |result| == k
      invariant forall i :: 0 <= i < k ==>
        result[i] == AsSource(Placement(items[i], source, expert.payloadStart, Unpacked(items[i])))
    {
      var item := items[k];
      var packed := if EndsWith(item.canonicalName, PACKED) then Some(PackedShape(role)) else Option.None;
      result := result + [SourceTensor(item.canonicalName, item.dtype, item.shape, source.path,
                                       item.offset - expert.payloadStart, item.length, packed)];
    }
  }

  method AddExpert(expert: ExpertPlan, source: MaterializedRangeObject) returns (result: seq<SourceTensor>)
    ensures result == AsSources(PlacedIn(ExecutionOrder(expert.tensors), source, expert.payloadStart))
  {
    hide ByRole, AsSource;
    var gate := AddRole(expert, Gate, source);
    var up := AddRole(expert, Up, source);
    var down := AddRole(expert, Down, source);
    result := gate + up + down;
  }

  lemma {:induction false} MembersHaveRole(ts: seq<PlannedTensor>, role: Role)
    ensures forall t :: t in ByRole(ts, role) ==> t.role == role
  {
    if ts != [] {
      MembersHaveRole(ts[..|ts| - 1], role);
    }
  }

  lemma NamesPresent(items: seq<PlannedTensor>)
    ensures forall item :: item in items ==> item.officialName in OfficialNames(items)
  {
  }

  lemma {:induction false} HeadAndTail(plan: MoePlan)
    ensures forall item :: item in plan.alwaysActive <==> item in Head(plan) || item in Tail(plan)
  {
    assert plan.alwaysActive == Head(plan) + Tail(plan);
  }

  lemma SourcesConcat(a: seq<Placement>, b: seq<Placement>)
    ensures AsSources(a + b) == AsSources(a) + AsSources(b)
  {
  }

  method BuildSourceTensors(plan: MoePlan, selected: seq<int>, plans: Dict<ExpertPlan>,
                            always: AlwaysObjects, objects: Dict<MaterializedRangeObject>)
    returns (r: Result<seq<SourceTensor>>)
    requires plans.Valid() && objects.Valid()
    ensures r.Ok? <==> GoodObjects(plan, selected, plans, always, objects)
    ensures r.Ok? ==> r.value == AsSources(Placements(plan, selected, plans, always, objects))
    ensures r.Ok? ==> forall id :: id in selected ==>
      && id in plans.values && id in objects.values
      && plans.values[id].layerId == plan.layerId && plans.values[id].expertId == id
      && plans.values[id].shardPath == plan.shardPath && plans.values[id].indexSha256 == plan.indexSha256
      && objects.values[id].length == plans.values[id].payloadBytes
    ensures r == Err(InvalidOfficialMoeObjectSet) ==>
              || plans.keys != selected || objects.keys != selected
              || always.Keys != OfficialNames(plan.alwaysActive)
              || exists item :: item in plan.alwaysActive && item.officialName in always
                                && always[item.officialName].length != item.length
  {
    hide ExecutionOrder, AlwaysPlacements, ExpertPlacements, AsSources, OfficialNames;
    if plans.keys != selected || objects.keys != selected || always.Keys != OfficialNames(plan.alwaysActive) {
      return Err(InvalidOfficialMoeObjectSet);
    }
    NamesPresent(plan.alwaysActive);
    HeadAndTail(plan);
    var head :- AddAlways(Head(plan), always);
    var middle :- AddExperts(plan, selected, plans, objects);
    var tail :- AddAlways(Tail(plan), always);
    var a, b := AlwaysPlacements(Head(plan), always), ExpertPlacements(selected, plans, objects);
    SourcesConcat(a, b);
    SourcesConcat(a + b, AlwaysPlacements(Tail(plan), always));
    return Ok(head + middle + tail);
  }

  method AddExperts(plan: MoePlan, selected: seq<int>, plans: Dict<ExpertPlan>, objects: Dict<MaterializedRangeObject>)
    returns (r: Result<seq<SourceTensor>>)
    requires forall id :: id in selected ==> id in plans.values && id in objects.values
    ensures r.Ok? <==> forall id :: id in selected ==> GoodExpert(plan, id, plans.values[id], objects.values[id])
    ensures r.Ok? ==> r.value == AsSources(ExpertPlacements(selected, plans, objects))
    ensures r.Err? ==> r.error == InvalidOfficialMoeExpertObject
  {
    hide GoodExpert, ExecutionOrder;
    var result: seq<SourceTensor> := [];
    for i := 0 to |selected|
      invariant forall k :: 0 <= k < i ==>
                  GoodExpert(plan, selected[k], plans.values[selected[k]], objects.values[selected[k]])
      invariant result == AsSources(ExpertPlacements(selected[..i], plans, objects))
    {
      var id := selected[i];
      assert selected[..i + 1][..i] == selected[..i];
      if !GoodExpert(plan, id, plans.values[id], objects.values[id]) {
        return Err(InvalidOfficialMoeExpertObject);
      }
      var added := AddExpert(plans.values[id], objects.values[id]);
      result := result + added;
    }
    assert selected[..|selected|] == selected;
    return Ok(result);
  }

  // ------------------------------------------------- reordering an expert

  function Pick(t: PlannedTensor, role: Role): seq<PlannedTensor> {
    if t.role == role then [t] else []
  }

  lemma {:induction false} ByRoleStep(ts: seq<PlannedTensor>, role: Role, i: nat)
    requires i < |ts|
    ensures ByRole(ts[..i + 1], role) == ByRole(ts[..i], role) + Pick(ts[i], role)
  {
    assert ts[..i + 1][..i] == ts[..i];
  }

  /** The tensors of a role among consecutive pairs that share their role. */
  lemma {:induction false} ByRolePair(ts: seq<PlannedTensor>, role: Role, i: nat)
    requires i + 1 < |ts| && ts[i].role == ts[i + 1].role
    ensures ByRole(ts[..i + 2], role) ==
              ByRole(ts[..i], role) + (if ts[i].role == role then [ts[i], ts[i + 1]] else [])
  {
    ByRoleStep(ts, role, i);
    ByRoleStep(ts, role, i + 1);
  }

  lemma {:induction false} ByRoleSix(ts: seq<PlannedTensor>, role: Role)
    requires |ts| == 6 && role in {Gate, Up, Down}
    requires ts[0].role == ts[1].role == Gate && ts[2].role == ts[3].role == Down && ts[4].role == ts[5].role == Up
    ensures ByRole(ts, role) ==
              if role == Gate then [ts[0], ts[1]] else if role == Down then [ts[2], ts[3]] else [ts[4], ts[5]]
  {
    assert ByRole(ts[..0], role) == [];
    hide ByRole;
    ByRolePair(ts, role, 0);
    ByRolePair(ts, role, 2);
    ByRolePair(ts, role, 4);
    assert ts[..6] == ts;
  }

  /** Gate, up, down is the plan's order with the last two pairs exchanged. */
  lemma {:induction false} PlannedOrder(plan: ExpertPlan, names: Names, weightMap: map<string, string>, header: ShardHeader)
    requires PlansExpert(plan, names, weightMap, header)
    ensures var t := plan.tensors; ExecutionOrder(t) == [t[0], t[1]] + [t[4], t[5]] + [t[2], t[3]]
    ensures var t := plan.tensors; |ByRole(t, Gate)| == |ByRole(t, Up)| == |ByRole(t, Down)| == 2
  {
    hide ByRole, CanonicalName, Listed;
    var t := plan.tensors;
    PlannedAt(plan, names, weightMap, header);
    ByRoleSix(t, Gate);
    ByRoleSix(t, Up);
    ByRoleSix(t, Down);
  }

  function PieceRange(t: PlannedTensor, start: int): Range {
    Range(t.offset - start, t.offset - start + t.length)
  }

  function PieceRanges(ts: seq<PlannedTensor>, start: int): (r: seq<Range>)
    ensures |r| == |ts| && forall i :: 0 <= i < |ts| ==> r[i] == PieceRange(ts[i], start)
  {
    seq(|ts|, i requires 0 <= i < |ts| => PieceRange(ts[i], start))
  }

  lemma {:induction false} AbuttingContiguous(ts: seq<PlannedTensor>, start: int, i: nat)
    requires Abutting(ts) && i < |ts|
    ensures Contiguous(PieceRanges(ts, start)[i..], ts[i].offset - start,
                       ts[|ts| - 1].offset + ts[|ts| - 1].length - start)
    decreases |ts| - i
  {
    var r := PieceRanges(ts, start);
    assert r[i..][1..] == r[i + 1..];
    if i + 1 < |ts| {
      assert ts[i].offset + ts[i].length == ts[i + 1].offset;
      AbuttingContiguous(ts, start, i + 1);
    } else {
      assert r[i + 1..] == [];
    }
  }

  lemma {:induction false} Exchange(r: seq<Range>, o: seq<Range>)
    requires |r| == |o| == 6
    requires o[..2] == r[..2] && o[2..4] == r[4..] && o[4..] == r[2..4]
    ensures multiset(o) == multiset(r)
  {
    assert r == r[..2] + r[2..4] + r[4..];
    assert o == o[..2] + o[2..4] + o[4..];
  }

  lemma {:induction false} ExchangePairs(t: seq<PlannedTensor>, start: int)
    requires |t| == 6
    ensures multiset(PieceRanges([t[0], t[1]] + [t[4], t[5]] + [t[2], t[3]], start)) ==
            multiset(PieceRanges(t, start))
  {
    hide PieceRange;
    Exchange(PieceRanges(t, start), PieceRanges([t[0], t[1]] + [t[4], t[5]] + [t[2], t[3]], start));
  }

  /** The gate/up/down reordering still covers the payload exactly once. */
  lemma {:induction false} ReorderedCoversPayload(plan: ExpertPlan, names: Names, weightMap: map<string, string>,
                                                  header: ShardHeader)
    requires PlansExpert(plan, names, weightMap, header)
    ensures Tiles(PieceRanges(ExecutionOrder(plan.tensors), plan.payloadStart), 0, plan.payloadBytes)
  {
    hide ByRole, ExecutionOrder, CanonicalName, Tiles, Listed;
    var t, start := plan.tensors, plan.payloadStart;
    PlannedAt(plan, names, weightMap, header);
    PlannedOrder(plan, names, weightMap, header);
    LastEnds(plan, names, weightMap, header);
    AbuttingContiguous(t, start, 0);
    var r := PieceRanges(t, start);
    assert r[0..] == r;
    assert forall i :: 0 <= i < 6 ==> r[i].start < r[i].end;
    ContiguousTiles(r, 0, plan.payloadBytes);
    ExchangePairs(t, start);
    SamePartition(r, PieceRanges(ExecutionOrder(t), start), plan.payloadBytes);
  }

  // ------------------------------------------------- official bytes, kept

  /** The tensor lies inside the range its object stands for. */
  ghost predicate Within(p: Placement) {
    && p.start <= p.tensor.offset
    && p.tensor.length >= 0
    && p.tensor.offset + p.tensor.length <= p.start + p.source.length
  }

  /** The object holds exactly the shard's bytes of its range. */
  ghost predicate Delivered(p: Placement, objects: Objects, shard: Bytes) {
    && 0 <= p.start && 0 <= p.source.length && p.start + p.source.length <= |shard|
    && p.source.path in objects
    && objects[p.source.path] == shard[p.start..p.start + p.source.length]
  }

  lemma {:induction false} AlwaysWithin(items: seq<PlannedTensor>, always: AlwaysObjects)
    requires forall item :: item in items ==>
               item.length >= 0 && item.officialName in always && always[item.officialName].length == item.length
    ensures forall p :: p in AlwaysPlacements(items, always) ==> Within(p)
  {
    if items != [] {
      var init, last := items[..|items| - 1], items[|items| - 1];
      assert items == init + [last];
      assert last in items && forall x :: x in init ==> x in items;
      AlwaysWithin(init, always);
    }
  }

  lemma {:induction false} ExpertWithin(plan: ExpertPlan, source: MaterializedRangeObject, names: Names,
                                        weightMap: map<string, string>, header: ShardHeader)
    requires PlansExpert(plan, names, weightMap, header) && source.length == plan.payloadBytes
    ensures forall p :: p in PlacedIn(ExecutionOrder(plan.tensors), source, plan.payloadStart) ==> Within(p)
  {
    hide CanonicalName, ExecutionOrder, Listed;
    var t := plan.tensors;
    PlannedAt(plan, names, weightMap, header);
    PlannedOrder(plan, names, weightMap, header);
    LastEnds(plan, names, weightMap, header);
    forall i | 0 <= i < 6 ensures Within(Placement(t[i], source, plan.payloadStart, Unpacked(t[i]))) {
      AbuttingStart(t, i);
      AbuttingEnd(t, i);
    }
  }

  lemma {:induction false} ExpertsWithin(ids: seq<int>, plans: Dict<ExpertPlan>, objects: Dict<MaterializedRangeObject>,
                                         names: Names, weightMap: map<string, string>, header: ShardHeader)
    requires forall id :: id in ids && id in plans.values && id in objects.values ==>
               PlansExpert(plans.values[id], names, weightMap, header)
               && objects.values[id].length == plans.values[id].payloadBytes
    ensures forall p :: p in ExpertPlacements(ids, plans, objects) ==> Within(p)
  {
    hide PlansExpert, ExecutionOrder, Within;
    if ids != [] {
      var init, last := ids[..|ids| - 1], ids[|ids| - 1];
      assert last in ids && forall x :: x in init ==> x in ids;
      ExpertsWithin(init, plans, objects, names, weightMap, header);
      if last in plans.values && last in objects.values {
        ExpertWithin(plans.values[last], objects.values[last], names, weightMap, header);
      }
    }
  }

  /** A piece cut from a delivered object is the official bytes of its tensor. */
  lemma {:induction false} PieceIsOfficial(p: Placement, objects: Objects, shard: Bytes)
    requires Within(p) && Delivered(p, objects, shard)
    ensures 0 <= p.tensor.offset && p.tensor.offset + p.tensor.length <= |shard|
    ensures var item := AsSource(p);
            && item.objectOffset >= 0 && item.length >= 0
            && item.objectOffset + item.length <= |objects[item.objectPath]|
            && Piece(item, objects) == shard[p.tensor.offset..p.tensor.offset + p.tensor.length]
  {
    var item := AsSource(p);
    SliceOfSlice(shard, p.start, p.start + p.source.length, item.objectOffset, item.objectOffset + item.length);
  }

  lemma {:induction false} AllWithin(plan: MoePlan, selected: seq<int>, plans: Dict<ExpertPlan>, always: AlwaysObjects,
                                     objects: Dict<MaterializedRangeObject>,
                                     names: Names, weightMap: map<string, string>, header: ShardHeader)
    requires GoodObjects(plan, selected, plans, always, objects)
    requires forall item :: item in plan.alwaysActive ==> item.length >= 0
    requires forall id :: id in selected ==> PlansExpert(plans.values[id], names, weightMap, header)
    ensures forall p :: p in Placements(plan, selected, plans, always, objects) ==> Within(p)
  {
    hide PlansExpert, Within, AlwaysPlacements, ExpertPlacements, OfficialNames;
    HeadAndTail(plan);
    AlwaysWithin(Head(plan), always);
    AlwaysWithin(Tail(plan), always);
    ExpertsWithin(selected, plans, objects, names, weightMap, header);
  }

  // ------------------------------------------- the built list is assemblable

  /** A shared tensor as planned: a known dtype, and exactly the bytes of its shape. */
  predicate PlannedTrunk(t: PlannedTensor) {
    && t.canonicalName != "" && KnownDtypeBytes(t.dtype).Some?
    && t.shape != [] && (forall d :: d in t.shape ==> d > 0) && t.length > 0
    && KnownDtypeBytes(t.dtype).value * Product(t.shape) == t.length
    && !EndsWith(t.canonicalName, PACKED)
  }

  /** A placement the assembler takes: good bytes, and a shape exactly for a packed weight. */
  ghost predicate Usable(p: Placement, objects: Objects) {
    GoodTensor(AsSource(p), objects) && ShapeFits(AsSource(p))
  }

  lemma {:induction false} AlwaysUsable(items: seq<PlannedTensor>, always: AlwaysObjects, objects: Objects, shard: Bytes)
    requires forall item :: item in items ==>
               PlannedTrunk(item) && item.officialName in always && always[item.officialName].length == item.length
    requires forall p :: p in AlwaysPlacements(items, always) ==> Delivered(p, objects, shard)
    ensures forall p :: p in AlwaysPlacements(items, always) ==> Usable(p, objects)
  {
    hide EndsWith, Product;
    if items != [] {
      var init, last := items[..|items| - 1], items[|items| - 1];
      assert items == init + [last];
      assert last in items && forall x :: x in init ==> x in items;
      AlwaysUsable(init, always, objects, shard);
      var p := Placement(last, always[last.officialName], last.offset, Option.None);
      assert AlwaysPlacement(last, always) == [p];
      assert p in AlwaysPlacements(items, always);
      assert Usable(p, objects);
    }
  }

  lemma {:induction false} ExpertUsable(plan: ExpertPlan, source: MaterializedRangeObject, names: Names,
                                        weightMap: map<string, string>, header: ShardHeader, objects: Objects, shard: Bytes)
    requires PlansExpert(plan, names, weightMap, header) && source.length == plan.payloadBytes
    requires forall p :: p in PlacedIn(ExecutionOrder(plan.tensors), source, plan.payloadStart) ==> Delivered(p, objects, shard)
    ensures forall p :: p in PlacedIn(ExecutionOrder(plan.tensors), source, plan.payloadStart) ==> Usable(p, objects)
  {
    hide CanonicalName, ExecutionOrder, GoodTensor, PlansExpert, EndsWith;
    var t, placed := plan.tensors, PlacedIn(ExecutionOrder(plan.tensors), source, plan.payloadStart);
    PlannedOrder(plan, names, weightMap, header);
    assert |t| == 6 && placed[0] in placed by { SixTensors(plan, names, weightMap, header); }
    assert Delivered(placed[0], objects, shard);
    forall k | 0 <= k < 6 ensures Usable(placed[k], objects) {
      var i := if k < 2 then k else if k < 4 then k + 2 else k - 2;
      assert placed[k] == Placement(t[i], source, plan.payloadStart, Unpacked(t[i]));
      RelocatedAreGood(plan, names, weightMap, header, source.path, objects, i);
      SamePiece(placed[k], objects);
    }
  }

  lemma SixTensors(plan: ExpertPlan, names: Names, weightMap: map<string, string>, header: ShardHeader)
    requires PlansExpert(plan, names, weightMap, header)
    ensures |plan.tensors| == 6
  {
  }

  /** The unpacked shape is no matter for the bytes. */
  lemma {:induction false} SamePiece(p: Placement, objects: Objects)
    requires GoodTensor(Relocated(p.tensor, p.source.path, p.start), objects) && p.packed == Unpacked(p.tensor)
    ensures Usable(p, objects)
  {
    hide Product, EndsWith;
  }

  lemma {:induction false} ExpertsUsable(ids: seq<int>, plans: Dict<ExpertPlan>, sources: Dict<MaterializedRangeObject>,
                                         names: Names, weightMap: map<string, string>, header: ShardHeader,
                                         objects: Objects, shard: Bytes)
    requires forall id :: id in ids && id in plans.values && id in sources.values ==>
               PlansExpert(plans.values[id], names, weightMap, header)
               && sources.values[id].length == plans.values[id].payloadBytes
    requires forall p :: p in ExpertPlacements(ids, plans, sources) ==> Delivered(p, objects, shard)
    ensures forall p :: p in ExpertPlacements(ids, plans, sources) ==> Usable(p, objects)
  {
    hide PlansExpert, ExecutionOrder, Usable, Delivered;
    if ids != [] {
      var init, last := ids[..|ids| - 1], ids[|ids| - 1];
      assert last in ids && forall x :: x in init ==> x in ids;
      assert ExpertPlacements(ids, plans, sources) ==
             ExpertPlacements(init, plans, sources) + ExpertPlacement(last, plans, sources);
      ExpertsUsable(init, plans, sources, names, weightMap, header, objects, shard);
      if last in plans.values && last in sources.values {
        ExpertUsable(plans.values[last], sources.values[last], names, weightMap, header, objects, shard);
      }
    }
  }

  /** What is known of a build: its objects fit, and its tensors were planned. */
  ghost predicate Built(plan: MoePlan, selected: seq<int>, plans: Dict<ExpertPlan>, always: AlwaysObjects,
                        sources: Dict<MaterializedRangeObject>, names: Names, weightMap: map<string, string>, header: ShardHeader)
  {
    && GoodObjects(plan, selected, plans, always, sources)
    && (forall item :: item in plan.alwaysActive ==> PlannedTrunk(item))
    && forall id :: id in selected ==> id in plans.values && PlansExpert(plans.values[id], names, weightMap, header)
  }

  lemma {:induction false} AllUsable(plan: MoePlan, selected: seq<int>, plans: Dict<ExpertPlan>, always: AlwaysObjects,
                                     sources: Dict<MaterializedRangeObject>, names: Names,
                                     weightMap: map<string, string>, header: ShardHeader, objects: Objects, shard: Bytes)
    requires Built(plan, selected, plans, always, sources, names, weightMap, header)
    requires forall p :: p in Placements(plan, selected, plans, always, sources) ==> Delivered(p, objects, shard)
    ensures forall p :: p in Placements(plan, selected, plans, always, sources) ==> Usable(p, objects) && Within(p)
  {
    hide PlansExpert, Within, Usable, Delivered, AlwaysPlacements, ExpertPlacements, OfficialNames, EndsWith, Product;
    HeadAndTail(plan);
    AllWithin(plan, selected, plans, always, sources, names, weightMap, header);
    AlwaysUsable(Head(plan), always, objects, shard);
    AlwaysUsable(Tail(plan), always, objects, shard);
    ExpertsUsable(selected, plans, sources, names, weightMap, header, objects, shard);
  }

  // ------------------------------------------------ what is built, in order

  lemma {:induction false} AlwaysInOrder(items: seq<PlannedTensor>, objects: AlwaysObjects)
    requires forall item :: item in items ==> item.officialName in objects
    ensures var r := AlwaysPlacements(items, objects);
            && |r| == |items|
            && forall i :: 0 <= i < |r| ==>
                 && r[i].tensor == items[i] && r[i].source == objects[items[i].officialName]
                 && r[i].start == items[i].offset && r[i].packed == Option.None
  {
    if items != [] {
      var init, last := items[..|items| - 1], items[|items| - 1];
      assert items == init + [last];
      assert last in items && forall x :: x in init ==> x in items;
      AlwaysInOrder(init, objects);
    }
  }

  /** `p` is piece `q` of an expert: its gate tensors, then up, then down, weights first;
      in the plan these stand at 0 and 1, 4 and 5, 2 and 3. */
  ghost predicate ExpertPiece(p: Placement, id: int, q: nat, plans: Dict<ExpertPlan>, objects: Dict<MaterializedRangeObject>) {
    && id in plans.values && id in objects.values && |plans.values[id].tensors| == 6 && q < 6
    && p.tensor == plans.values[id].tensors[if q < 2 then q else if q < 4 then q + 2 else q - 2]
    && p.source == objects.values[id] && p.start == plans.values[id].payloadStart && p.packed == Unpacked(p.tensor)
  }

  lemma {:induction false} ExpertInOrder(id: int, plans: Dict<ExpertPlan>, objects: Dict<MaterializedRangeObject>,
                                         names: Names, weightMap: map<string, string>, header: ShardHeader)
    requires id in plans.values && id in objects.values && PlansExpert(plans.values[id], names, weightMap, header)
    ensures |ExpertPlacement(id, plans, objects)| == 6
    ensures forall q: nat :: q < 6 ==> ExpertPiece(ExpertPlacement(id, plans, objects)[q], id, q, plans, objects)
  {
    hide PlansExpert, ExecutionOrder, Unpacked;
    var t := plans.values[id].tensors;
    SixTensors(plans.values[id], names, weightMap, header);
    PlannedOrder(plans.values[id], names, weightMap, header);
    assert ExecutionOrder(t) == [t[0], t[1], t[4], t[5], t[2], t[3]];
  }

  /** Entry `6 * j + q` of the experts is piece q of expert j. */
  lemma {:induction false} ExpertsInOrder(ids: seq<int>, plans: Dict<ExpertPlan>, objects: Dict<MaterializedRangeObject>,
                                          names: Names, weightMap: map<string, string>, header: ShardHeader, j: nat, q: nat)
    requires forall id :: id in ids ==>
               id in plans.values && id in objects.values && PlansExpert(plans.values[id], names, weightMap, header)
    requires q < 6
    ensures |ExpertPlacements(ids, plans, objects)| == 6 * |ids|
    ensures j < |ids| ==> ExpertPiece(ExpertPlacements(ids, plans, objects)[6 * j + q], ids[j], q, plans, objects)
  {
    hide PlansExpert, ExpertPiece, ExpertPlacement;
    if ids != [] {
      var init, last := ids[..|ids| - 1], ids[|ids| - 1];
      assert last in ids && forall x :: x in init ==> x in ids;
      ExpertsInOrder(init, plans, objects, names, weightMap, header, j, q);
      ExpertInOrder(last, plans, objects, names, weightMap, header);
      var a, b := ExpertPlacements(init, plans, objects), ExpertPlacement(last, plans, objects);
      assert ExpertPlacements(ids, plans, objects) == a + b;
      if j == |init| {
        assert (a + b)[6 * j + q] == b[q];
      }
    }
  }

  /** The built list: the first six shared tensors, six tensors an expert in selection
      order, then the other shared tensors. */
  lemma {:induction false} BuiltInOrder(plan: MoePlan, selected: seq<int>, plans: Dict<ExpertPlan>, always: AlwaysObjects,
                                        sources: Dict<MaterializedRangeObject>, names: Names,
                                        weightMap: map<string, string>, header: ShardHeader, k: nat, j: nat, q: nat)
    requires Built(plan, selected, plans, always, sources, names, weightMap, header)
    requires 6 <= |plan.alwaysActive| && q < 6
    ensures var ps := Placements(plan, selected, plans, always, sources);
            && |ps| == |plan.alwaysActive| + 6 * |selected|
            && (k < 6 ==> ps[k].tensor == plan.alwaysActive[k])
            && (j < |selected| ==> ExpertPiece(ps[6 + (6 * j + q)], selected[j], q, plans, sources))
            && (6 <= k < |plan.alwaysActive| ==> ps[6 * |selected| + k].tensor == plan.alwaysActive[k])
  {
    hide PlansExpert, AlwaysPlacements, ExpertPlacements, OfficialNames, PlannedTrunk, GoodExpert, ExpertPiece;
    HeadAndTail(plan);
    AlwaysInOrder(Head(plan), always);
    AlwaysInOrder(Tail(plan), always);
    ExpertsInOrder(selected, plans, sources, names, weightMap, header, j, q);
  }

  /** A packed weight of a planned expert unpacks to twice its columns; nothing else unpacks. */
  lemma {:induction false} PackedIsHalf(plan: ExpertPlan, names: Names, weightMap: map<string, string>, header: ShardHeader, i: nat)
    requires PlansExpert(plan, names, weightMap, header) && i < 6
    ensures |plan.tensors| == 6 && |plan.tensors[i].shape| == 2
    ensures var t := plan.tensors[i];
            Unpacked(t) == if i % 2 == 0 then Some([t.shape[0], 2 * t.shape[1]]) else Option.None
  {
    hide PlansExpert, PlacedByHeader, Names.Official, Names.Canonical, EndsWith;
    NamesAreMatched(plan, names, weightMap, header);
    var base := names.Canonical(plan.layerId, plan.expertId);
    if i % 2 == 0 {
      var middle := if i == 0 then ".gate" else if i == 2 then ".down" else ".up";
      assert plan.tensors[i].canonicalName == (base + middle) + PACKED;
      EndsWithSuffix(base + middle, PACKED);
    } else {
      NotPacked(plan.tensors[i].canonicalName);
    }
  }

  /** A name that ends in `e` is no packed weight. */
  lemma NotPacked(name: string)
    requires name != [] && name[|name| - 1] == 'e'
    ensures !EndsWith(name, PACKED)
  {
  }

  /** The object of a placement was fetched: its blob holds the range, as a returning
      call of the fetcher leaves it. */
  ghost predicate Fetched(p: Placement, directory: ObjectDirectory, revision: string, shardPath: string, lfs: Digest)
    reads directory`data, directory`docs
  {
    && p.source.path == Blob(p.source.sha256)
    && directory.Holds(Identity(revision, shardPath, lfs, p.start, p.source.length), p.source.sha256)
  }

  lemma FetchedIsDelivered(p: Placement, directory: ObjectDirectory, revision: string,
                                              shardPath: string, lfs: Digest)
    requires Fetched(p, directory, revision, shardPath, lfs)
    ensures Delivered(p, directory.data, directory.world.shard(revision, shardPath))
  {
  }

  /** The shard of a build, when nothing about its header stands in the way. */
  ghost predicate Printable(sources: seq<SourceTensor>, encode: JsonEncoder, decode: JsonDecoder) {
    && sources != [] && DistinctTensors(sources) && (forall i :: 0 <= i < |sources| ==> !("__" <= sources[i].name))
    && |encode(HeaderOf(sources))| <= MAX_HEADER_BYTES && PrintsBack(encode, decode, HeaderOf(sources))
  }

  /** From the official shard to the assembled one.  When every object of a build was
      fetched, the assembler takes the built list, the parser accepts its shard, and every
      tensor read back is the official bytes of that tensor, whatever its role and
      wherever it was moved. */
  lemma {:induction false} OfficialBytesSurvive(
      plan: MoePlan, selected: seq<int>, plans: Dict<ExpertPlan>, always: AlwaysObjects,
      sources: Dict<MaterializedRangeObject>, names: Names, weightMap: map<string, string>, header: ShardHeader,
      directory: ObjectDirectory, revision: string, lfs: Digest, encode: JsonEncoder, decode: JsonDecoder)
    requires Built(plan, selected, plans, always, sources, names, weightMap, header)
    requires forall p :: p in Placements(plan, selected, plans, always, sources) ==>
               Fetched(p, directory, revision, plan.shardPath, lfs)
    requires Printable(AsSources(Placements(plan, selected, plans, always, sources)), encode, decode)
    ensures var ps := Placements(plan, selected, plans, always, sources);
            && Assemblable(AsSources(ps), directory.data)
            && (forall i :: 0 <= i < |ps| ==> ShapeFits(AsSource(ps[i])))
            && forall k :: 0 <= k < |ps| ==>
                 HoldsTensor(ShardBytes(AsSources(ps), directory.data, encode), decode, ps[k].tensor,
                             directory.world.shard(revision, plan.shardPath))
  {
    hide Placements, HeaderOf, Pow256, AcceptsShard, ShardBytes, PrintsBack, HoldsTensor, Fetched, GoodTensor, ShapeFits;
    hide Built, Delivered, Within;
    var ps, shard := Placements(plan, selected, plans, always, sources), directory.world.shard(revision, plan.shardPath);
    forall p | p in ps ensures Delivered(p, directory.data, shard) {
      FetchedIsDelivered(p, directory, revision, plan.shardPath, lfs);
    }
    AllUsable(plan, selected, plans, always, sources, names, weightMap, header, directory.data, shard);
    forall i | 0 <= i < |ps| ensures GoodTensor(AsSources(ps)[i], directory.data) && ShapeFits(AsSource(ps[i])) {
      assert ps[i] in ps && Usable(ps[i], directory.data);
    }
    ModulusIsPow(U64);
    AssembledIsAccepted(AsSources(ps), directory.data, encode, decode);
    forall k | 0 <= k < |ps|
      ensures HoldsTensor(ShardBytes(AsSources(ps), directory.data, encode), decode, ps[k].tensor, shard)
    {
      assert ps[k] in ps;
      PieceIsOfficial(ps[k], directory.data, shard);
      LengthIsUnsigned(ps[k]);
      AssembledHolds(AsSources(ps), directory.data, encode, decode, k, ps[k].tensor, shard);
    }
  }

  lemma LengthIsUnsigned(p: Placement)
    requires Within(p)
    ensures p.tensor.length >= 0
  {
  }
}
