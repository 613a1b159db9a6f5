// The source manifest: which shard owns which tensor
// (converter/k3x_converter/source_manifest.py).

module SourceManifest {
  import opened Safetensors
  import opened Wrappers

  datatype SourceTensor = SourceTensor(shard: string, metadata: TensorMetadata)

  /** The shards a weight map refers to. */
  function Referenced(weightMap: map<string, string>): set<string> {
    set name | name in weightMap :: weightMap[name]
  }

  /** Each referenced shard resolves, is accepted, and holds exactly the tensors
      the weight map gives it. */
  ghost predicate Partitions(weightMap: map<string, string>, shards: map<string, Bytes>, decode: JsonDecoder) {
    forall shard :: shard in Referenced(weightMap) ==>
      && shard in shards
      && AcceptsShard(shards[shard], decode)
      && forall name :: name in ShardTensors(shards[shard], decode) <==> name in weightMap && weightMap[name] == shard
  }

  /** One shard's tensors, added unless another shard claimed the name or the map
      names another owner. */
  method AddShard(weightMap: map<string, string>, shard: string, found: map<string, TensorMetadata>,
                  tensors: map<string, SourceTensor>)
    returns (r: Result<map<string, SourceTensor>>)
    ensures r.Ok? <==> forall name :: name in found ==> name !in tensors && name in weightMap && weightMap[name] == shard
    ensures r.Ok? ==> r.value.Keys == tensors.Keys + found.Keys
    ensures r.Ok? ==> forall name :: name in r.value ==>
              r.value[name] == if name in found then SourceTensor(shard, found[name]) else tensors[name]
  {
    var pending := found.Keys;
    var result := tensors;
    while pending != {}
      invariant pending <= found.Keys
      invariant result.Keys == tensors.Keys + (found.Keys - pending)
      invariant forall name :: name in found.Keys - pending ==>
                  name !in tensors && name in weightMap && weightMap[name] == shard
      invariant forall name :: name in result ==>
                  result[name] == if name in found && name !in pending then SourceTensor(shard, found[name]) else tensors[name]
      decreases pending
    {
      var name :| name in pending;
      if name in result || name !in weightMap || weightMap[name] != shard {
        return Err(SourceTensorShardMismatch);
      }
      result := result[name := SourceTensor(shard, found[name])];
      pending := pending - {name};
    }
    return Ok(result);
  }

  /** What is known once the shards in `done` have been read. */
  ghost predicate Collected(weightMap: map<string, string>, shards: map<string, Bytes>, decode: JsonDecoder,
                            done: set<string>, tensors: map<string, SourceTensor>)
  {
    && (forall shard :: shard in done ==>
          && shard in shards && AcceptsShard(shards[shard], decode)
          && forall name :: name in ShardTensors(shards[shard], decode) ==>
               name in weightMap && weightMap[name] == shard && name in tensors)
    && (forall name :: name in tensors ==>
          && name in weightMap && weightMap[name] in done
          && weightMap[name] in shards && AcceptsShard(shards[weightMap[name]], decode)
          && name in ShardTensors(shards[weightMap[name]], decode)
          && tensors[name] == SourceTensor(weightMap[name], ShardTensors(shards[weightMap[name]], decode)[name]))
  }

  lemma CollectedNext(weightMap: map<string, string>, shards: map<string, Bytes>, decode: JsonDecoder,
                      done: set<string>, shard: string, before: map<string, SourceTensor>,
                      after: map<string, SourceTensor>)
    requires Collected(weightMap, shards, decode, done, before)
    requires shard !in done && shard in shards && AcceptsShard(shards[shard], decode)
    requires var found := ShardTensors(shards[shard], decode);
             && (forall name :: name in found ==> name !in before && name in weightMap && weightMap[name] == shard)
             && after.Keys == before.Keys + found.Keys
             && forall name :: name in after ==>
                  after[name] == if name in found then SourceTensor(shard, found[name]) else before[name]
    ensures Collected(weightMap, shards, decode, done + {shard}, after)
  {
  }

  /** With every referenced shard read, the maps agree exactly for a partition. */
  lemma {:induction false} CollectedAll(weightMap: map<string, string>, shards: map<string, Bytes>, decode: JsonDecoder,
                     tensors: map<string, SourceTensor>)
    requires Collected(weightMap, shards, decode, Referenced(weightMap), tensors)
    ensures tensors.Keys == weightMap.Keys <==> Partitions(weightMap, shards, decode)
  {
    if Partitions(weightMap, shards, decode) {
      forall name | name in weightMap ensures name in tensors {
        assert weightMap[name] in Referenced(weightMap);
        assert name in ShardTensors(shards[weightMap[name]], decode);
      }
    }
    if tensors.Keys == weightMap.Keys {
      forall shard | shard in Referenced(weightMap)
        ensures forall name :: name in ShardTensors(shards[shard], decode) <==> name in weightMap && weightMap[name] == shard
      {
        forall name | name in weightMap && weightMap[name] == shard
          ensures name in ShardTensors(shards[shard], decode)
        {
          assert name in tensors;
        }
      }
    }
  }

  method InspectManifestTensors(weightMap: map<string, string>, shards: map<string, Bytes>, decode: JsonDecoder)
    returns (r: Result<map<string, SourceTensor>>)
    ensures r.Ok? <==> Partitions(weightMap, shards, decode)
    ensures r.Ok? ==> r.value.Keys == weightMap.Keys
    ensures r.Ok? ==> forall name :: name in weightMap ==>
              && weightMap[name] in shards && AcceptsShard(shards[weightMap[name]], decode)
              && name in ShardTensors(shards[weightMap[name]], decode)
              && r.value[name] == SourceTensor(weightMap[name], ShardTensors(shards[weightMap[name]], decode)[name])
  {
    hide AcceptsShard, ShardTensors;
    var tensors: map<string, SourceTensor> := map[];
    var pending := Referenced(weightMap);
    while pending != {}
      invariant pending <= Referenced(weightMap)
      invariant Collected(weightMap, shards, decode, Referenced(weightMap) - pending, tensors)
      decreases pending
    {
      var shard :| shard in pending;
      if shard !in shards {
        return Err(SourceShardPathEscape);
      }
      var found :- InspectShard(shards[shard], decode);
      var added := AddShard(weightMap, shard, found, tensors);
      if added.Err? {
        assert !Partitions(weightMap, shards, decode);
        return Err(added.error);
      }
      ghost var done := Referenced(weightMap) - pending;
      CollectedNext(weightMap, shards, decode, done, shard, tensors, added.value);
      tensors := added.value;
      pending := pending - {shard};
      assert done + {shard} == Referenced(weightMap) - pending;
    }
    assert Referenced(weightMap) - pending == Referenced(weightMap);
    CollectedAll(weightMap, shards, decode, tensors);
    if tensors.Keys != weightMap.Keys {
      return Err(SourceTensorShardMismatch);
    }
    return Ok(tensors);
  }

  /** In an accepted source every data byte of every referenced shard belongs to
      exactly one tensor, and the weight map gives that tensor to that shard. */
  lemma {:induction false} EverySourceByteMapped(weightMap: map<string, string>, shards: map<string, Bytes>, decode: JsonDecoder,
                              shard: string, b: int)
    requires Partitions(weightMap, shards, decode) && shard in Referenced(weightMap)
    requires 8 + HeaderLength(shards[shard]).value <= b < |shards[shard]|
    ensures exists name :: name in weightMap && weightMap[name] == shard
              && OwnsByte(ShardTensors(shards[shard], decode)[name], b)
    ensures var tensors := ShardTensors(shards[shard], decode);
            forall m, n | m in weightMap && n in weightMap && weightMap[m] == weightMap[n] == shard
                          && OwnsByte(tensors[m], b) && OwnsByte(tensors[n], b) :: m == n
  {
    var file := shards[shard];
    var h := HeaderLength(file).value;
    EveryByteOwnedOnce(decode(file[8..8 + h]).value, 8 + h, |file|, b);
  }
}
