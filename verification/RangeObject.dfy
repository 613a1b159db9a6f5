// The crash-resumable fetcher of one byte range of an official shard
// (materialize_official_range_object, converter/k3x_converter/official_moe.py).
//
// The object directory is a map-valued file system.  A call mutates it through
// write, rename and unlink, and the process can be killed before any of them, a
// write being cut at any byte.  Between calls the bytes of the range files can
// change in any way and the JSON documents can vanish or become unreadable.

module RangeObject {
  import opened Arithmetic
  import opened Wrappers

  type Digest = Bytes

  // ------------------------------------------------------------ the world

  /** What a range document identifies itself by. */
  datatype Identity = Identity(
    revision: string, shardPath: string, shardLfs: Digest, start: int, length: int)

  datatype OfficialFile = OfficialFile(size: int, lfs: Option<Digest>)

  datatype Snapshot = Snapshot(revision: string, files: map<string, OfficialFile>)

  /** What the code trusts: a digest, the name derived from an identity, and the
      bytes of every shard at a pinned revision. */
  datatype World = World(
    hash: Bytes -> Digest,
    rangeId: Identity -> Digest,
    shard: (string, string) -> Bytes)
  {
    ghost predicate InShard(id: Identity) {
      0 <= id.start && 0 < id.length && id.start + id.length <= |shard(id.revision, id.shardPath)|
    }

    /** The official bytes of a range. */
    ghost function Truth(id: Identity): Bytes
      requires InShard(id)
    {
      shard(id.revision, id.shardPath)[id.start..id.start + id.length]
    }

    ghost predicate IsDigest(id: Identity, d: Digest) {
      InShard(id) && d == hash(Truth(id))
    }

    /** Ranges with one digest have one length. */
    ghost predicate Unmixed(a: Identity, b: Identity) {
      InShard(a) && InShard(b) && hash(Truth(a)) == hash(Truth(b)) ==> a.length == b.length
    }

    /** No other string of the same length has the digest of a prefix of an
        official range. */
    ghost predicate Resistant() {
      forall id: Identity, b: Bytes ::
        InShard(id) && |b| <= id.length && hash(b) == hash(Truth(id)[..|b|]) ==> b == Truth(id)[..|b|]
    }
  }

  lemma Pinned(w: World, id: Identity, b: Bytes)
    requires w.Resistant() && w.InShard(id) && |b| <= id.length
    requires w.hash(b) == w.hash(w.Truth(id)[..|b|])
    ensures b == w.Truth(id)[..|b|]
  {
  }

  // ------------------------------------------------------------ transport

  datatype Request = Request(revision: string, path: string, first: int, last: int)

  /** `Content-Range: bytes first-last/total`, both ends inclusive. */
  datatype ContentRange = ContentRange(first: int, last: int, total: int)

  datatype HttpResponse = HttpResponse(status: int, contentRange: Option<ContentRange>, body: Bytes)

  ghost predicate Accepted(q: Request, size: int, r: HttpResponse) {
    && r.status == 206
    && r.contentRange == Some(ContentRange(q.first, q.last, size))
    && |r.body| == q.last - q.first + 1
  }

  /** A remote that answers each request as it likes. */
  class Transport {
    const respond: (nat, Request) -> HttpResponse
    var calls: nat

    constructor (respond: (nat, Request) -> HttpResponse)
      ensures this.respond == respond && calls == 0
    {
      this.respond := respond;
      calls := 0;
    }

    /** A response that claims a range carries the shard's bytes of that range. */
    ghost predicate Honest(w: World) {
      forall n: nat, q: Request, size: int :: 0 <= q.first <= q.last && Accepted(q, size, respond(n, q)) ==>
        && size == |w.shard(q.revision, q.path)|
        && q.last < size
        && respond(n, q).body == w.shard(q.revision, q.path)[q.first..q.last + 1]
    }

    /** A remote that answers every range of every shard. */
    ghost predicate Serves(w: World) {
      forall n: nat, q: Request :: 0 <= q.first <= q.last < |w.shard(q.revision, q.path)| ==>
        Accepted(q, |w.shard(q.revision, q.path)|, respond(n, q))
    }

    method Get(q: Request) returns (r: HttpResponse)
      modifies this
      ensures r == respond(old(calls), q) && calls == old(calls) + 1
    {
      r := respond(calls, q);
      calls := calls + 1;
    }
  }

  // ---------------------------------------------------------- file system

  datatype DataName = Partial(rangeId: Digest) | Blob(digest: Digest)

  datatype DocName = Progress(rangeId: Digest) | Record(rangeId: Digest) | Pending(of: DocName)

  /** A decoded JSON document.  A field that is missing or has the wrong type is
      `None`; a document that does not decode is `Unreadable`. */
  datatype Doc =
    | Unreadable
    | Json(identity: Option<Identity>, completed: Option<int>, partialSha256: Option<Digest>,
           sha256: Option<Digest>, blob: Option<DataName>)

  /** How a call ends: with a value, by being killed, or by raising. */
  datatype Outcome<+T> = Done(value: T) | Killed | Raised(error: K3XError) {
    predicate IsFailure() {
      !Done?
    }

    function PropagateFailure<U>(): Outcome<U>
      requires !Done?
    {
      if Killed? then Killed else Raised(error)
    }

    function Extract(): T
      requires Done?
    {
      value
    }
  }

  datatype MaterializedRangeObject = MaterializedRangeObject(
    path: DataName, sha256: Digest, length: int, reused: bool,
    requests: nat, maximumResponseBytes: nat, responseBytes: nat)

  datatype Traffic = Traffic(requests: nat, maximumResponseBytes: nat, responseBytes: nat)

  const REQUEST_LIMIT: int := 8 * 1024 * 1024
  const HEADER_LIMIT: int := 100_000_000

  /** A surviving document never carries a digest of anything but official bytes. */
  ghost predicate Truthful(w: World, name: DocName, doc: Doc) {
    && (doc.Json? && name.Record? && doc.blob.Some? ==> doc.sha256.Some? && doc.blob.value == Blob(doc.sha256.value))
    && (doc.Json? && doc.identity.Some? ==>
      var id := doc.identity.value;
      && (name.Progress? && doc.completed.Some? && doc.partialSha256.Some?
          && 0 <= doc.completed.value <= id.length ==>
            w.InShard(id) && doc.partialSha256.value == w.hash(w.Truth(id)[..doc.completed.value]))
      && (name.Record? && doc.sha256.Some? ==>
            w.InShard(id) && doc.sha256.value == w.hash(w.Truth(id))))
  }

  function Lookup<K, V>(m: map<K, V>, k: K): Option<V> {
    if k in m then Some(m[k]) else None
  }

  class ObjectDirectory {
    const world: World
    var data: map<DataName, Bytes>
    var docs: map<DocName, Doc>
    /** The number of mutations left before the process is killed. */
    var budget: nat

    constructor (world: World)
      ensures this.world == world && Valid()
    {
      this.world := world;
      data, docs, budget := map[], map[], 0;
    }

    ghost predicate Valid()
      reads `data, `docs
    {
      forall name :: name in docs ==> Truthful(world, name, docs[name])
    }

    // Mutations.

    method Spend() returns (o: Outcome<()>)
      modifies this`budget
      ensures if old(budget) == 0 then o == Killed && budget == 0 else o == Done(()) && budget == old(budget) - 1
    {
      if budget == 0 {
        return Killed;
      }
      budget := budget - 1;
      return Done(());
    }

    method Truncate(name: DataName) returns (o: Outcome<()>)
      modifies this
      ensures if old(budget) == 0 then o == Killed && budget == 0 else o == Done(()) && budget == old(budget) - 1
      ensures docs == old(docs)
      ensures data == if o.Done? then old(data)[name := []] else old(data)
    {
      var _ :- Spend();
      data := data[name := []];
      return Done(());
    }

    method Append(name: DataName, body: Bytes) returns (o: Outcome<()>)
      requires name in data
      modifies this
      ensures if old(budget) == 0 then o == Killed && budget == 0 else o == Done(()) && budget == old(budget) - 1
      ensures docs == old(docs)
      ensures o.Done? ==> data == old(data)[name := old(data)[name] + body]
      ensures o.Killed? ==> name in data && data == old(data)[name := data[name]]
      ensures o.Killed? ==> old(data)[name] <= data[name] <= old(data)[name] + body
    {
      var alive := Spend();
      if alive.Killed? {
        var torn: nat :| torn <= |body|;
        data := data[name := data[name] + body[..torn]];
        return Killed;
      }
      data := data[name := data[name] + body];
      return Done(());
    }

    method RenameData(from: DataName, to: DataName) returns (o: Outcome<()>)
      requires from in data && from != to
      modifies this
      ensures if old(budget) == 0 then o == Killed && budget == 0 else o == Done(()) && budget == old(budget) - 1
      ensures docs == old(docs)
      ensures data == if o.Done? then old(data)[to := old(data)[from]] - {from} else old(data)
    {
      var _ :- Spend();
      data := data[to := data[from]] - {from};
      return Done(());
    }

    method UnlinkData(name: DataName) returns (o: Outcome<()>)
      modifies this
      ensures name !in old(data) ==> o == Done(()) && budget == old(budget)
      ensures name in old(data) ==>
        if old(budget) == 0 then o == Killed && budget == 0 else o == Done(()) && budget == old(budget) - 1
      ensures docs == old(docs)
      ensures data == if o.Done? then old(data) - {name} else old(data)
    {
      if name in data {
        var _ :- Spend();
        data := data - {name};
      }
      return Done(());
    }

    method UnlinkDoc(name: DocName) returns (o: Outcome<()>)
      modifies this
      ensures name !in old(docs) ==> o == Done(()) && budget == old(budget)
      ensures name in old(docs) ==>
        if old(budget) == 0 then o == Killed && budget == 0 else o == Done(()) && budget == old(budget) - 1
      ensures data == old(data)
      ensures docs == if o.Done? then old(docs) - {name} else old(docs)
    {
      if name in docs {
        var _ :- Spend();
        docs := docs - {name};
      }
      return Done(());
    }

    /** `_write_json_atomic`: write beside the document, then rename over it. */
    method WriteJsonAtomic(name: DocName, doc: Doc) returns (o: Outcome<()>)
      requires !name.Pending? && Valid() && Truthful(world, name, doc)
      modifies this
      ensures if old(budget) < 2 then o == Killed && budget == 0 else o == Done(()) && budget == old(budget) - 2
      ensures Valid() && data == old(data)
      ensures Lookup(docs, name) == if o.Done? then Some(doc) else Lookup(old(docs), name)
      ensures forall other :: other != name && other != Pending(name) ==>
                Lookup(docs, other) == Lookup(old(docs), other)
    {
      var alive := Spend();
      if alive.Killed? {
        docs := docs[Pending(name) := Unreadable];
        return Killed;
      }
      docs := docs[Pending(name) := doc];
      alive := Spend();
      if alive.Killed? {
        return Killed;
      }
      docs := docs[name := doc] - {Pending(name)};
      return Done(());
    }

    // What the files on disk are worth to the next call.

    /** The bytes of the range that the next call need not fetch. */
    ghost function VerifiedPrefix(id: Identity): nat
      reads `data, `docs
    {
      var rid := world.rangeId(id);
      if Partial(rid) in data && Progress(rid) in docs && ValidProgress(id, docs[Progress(rid)], data[Partial(rid)])
      then docs[Progress(rid)].completed.value else 0
    }

    predicate ValidProgress(id: Identity, doc: Doc, partial: Bytes) {
      && doc.Json?
      && doc.identity == Some(id)
      && doc.completed.Some?
      && 0 <= doc.completed.value <= id.length
      && |partial| == doc.completed.value
      && doc.partialSha256 == Some(world.hash(partial))
    }

    /** A record that the next call returns without fetching anything. */
    ghost predicate Reusable(id: Identity)
      reads `data, `docs
    {
      var name := Record(world.rangeId(id));
      && name in docs
      && docs[name].Json?
      && docs[name].identity == Some(id)
      && docs[name].sha256.Some?
      && docs[name].blob == Some(Blob(docs[name].sha256.value))
      && ValidBlob(id, docs[name].sha256.value)
    }

    /** The content check of both the reuse and the publication path. */
    predicate ValidBlob(id: Identity, digest: Digest)
      reads `data, `docs
    {
      Blob(digest) in data && |data[Blob(digest)]| == id.length && world.hash(data[Blob(digest)]) == digest
    }

    /** The blob of `digest` holds exactly the official bytes of the range. */
    ghost predicate Holds(id: Identity, digest: Digest)
      reads `data, `docs
    {
      && world.InShard(id)
      && digest == world.hash(world.Truth(id))
      && Blob(digest) in data
      && data[Blob(digest)] == world.Truth(id)
    }

    /** The partial file is exactly as long as the ledger of the range says. */
    ghost predicate InStep(id: Identity)
      reads `data, `docs
    {
      var rid := world.rangeId(id);
      && Partial(rid) in data && Progress(rid) in docs
      && var doc := docs[Progress(rid)];
         && doc.Json? && doc.identity == Some(id) && doc.partialSha256.Some?
         && doc.completed == Some(|data[Partial(rid)]|)
    }

    /** Partial files, ledgers and records of all other ranges are as they were. */
    twostate predicate Spares(rid: Digest)
      reads `data, `docs
    {
      && (forall other: Digest | other != rid :: Lookup(data, Partial(other)) == Lookup(old(data), Partial(other)))
      && (forall other: Digest | other != rid :: Lookup(docs, Progress(other)) == Lookup(old(docs), Progress(other)))
      && forall other: Digest | other != rid :: Lookup(docs, Record(other)) == Lookup(old(docs), Record(other))
    }

    /** Only a blob that goes by the digest of the range and is not the range is touched. */
    twostate predicate KeepsBlobs(id: Identity)
      reads `data, `docs
    {
      forall d: Digest | Blob(d) in old(data) && (world.IsDigest(id, d) ==> old(ValidBlob(id, d))) ::
        Lookup(data, Blob(d)) == Lookup(old(data), Blob(d))
    }

    /** Sparing a range keeps what its next call need not fetch. */
    twostate lemma SparedPrefix(rid: Digest, other: Identity)
      requires Spares(rid) && world.rangeId(other) != rid
      ensures VerifiedPrefix(other) == old(VerifiedPrefix(other))
    {
      var r := world.rangeId(other);
      assert Lookup(data, Partial(r)) == Lookup(old(data), Partial(r));
      assert Lookup(docs, Progress(r)) == Lookup(old(docs), Progress(r));
    }

    /** A call for one range keeps the finished objects of all others, unless two ranges
        of different lengths share a digest. */
    twostate lemma SparedObject(id: Identity, other: Identity)
      requires Spares(world.rangeId(id)) && KeepsBlobs(id) && world.rangeId(other) != world.rangeId(id)
      requires old(Valid()) && old(Reusable(other)) && world.Unmixed(id, other)
      ensures Reusable(other)
    {
      var name := Record(world.rangeId(other));
      assert Lookup(docs, name) == Lookup(old(docs), name);
      assert Truthful(world, name, old(docs)[name]);
      var d := old(docs)[name].sha256.value;
      assert Lookup(data, Blob(d)) == Lookup(old(data), Blob(d));
    }

    // The phases of one call.

    lemma {:induction false} RecordHolds(id: Identity, doc: Doc, blob: Bytes)
      requires doc.Json? && doc.identity == Some(id) && doc.sha256.Some?
      requires Truthful(world, Record(world.rangeId(id)), doc) && world.Resistant()
      requires |blob| == id.length && world.hash(blob) == doc.sha256.value
      ensures world.InShard(id) && doc.sha256.value == world.hash(world.Truth(id)) && blob == world.Truth(id)
    {
      assert world.Truth(id)[..id.length] == world.Truth(id);
      Pinned(world, id, blob);
    }

    lemma RecordNames(id: Identity, doc: Doc)
      requires doc.Json? && doc.identity == Some(id) && Truthful(world, Record(world.rangeId(id)), doc)
      ensures doc.blob.Some? ==> doc.sha256.Some? && doc.blob.value == Blob(doc.sha256.value)
      ensures doc.sha256.Some? ==> world.IsDigest(id, doc.sha256.value)
    {
    }

    method Reuse(id: Identity) returns (o: Outcome<Option<Digest>>)
      requires Valid() && world.Resistant()
      modifies this
      ensures Valid() && (o.Done? || o.Killed?)
      ensures if o.Killed? then old(budget) < 2 else old(budget) - 2 <= budget <= old(budget)
      ensures Record(world.rangeId(id)) !in old(docs) ==> o.Done? && budget == old(budget)
      ensures o.Done? && o.value.Some? <==> old(Reusable(id))
      ensures old(Reusable(id)) ==>
                data == old(data) && docs == old(docs) && Holds(id, o.value.value)
      ensures old(Reusable(id)) ==> Reusable(id)
      ensures VerifiedPrefix(id) == old(VerifiedPrefix(id))
      ensures Spares(world.rangeId(id)) && KeepsBlobs(id)
    {
      hide Truthful, World.Resistant, World.InShard, World.IsDigest;
      var name := Record(world.rangeId(id));
      if name in docs && docs[name].Json? && docs[name].identity == Some(id) {
        var doc := docs[name];
        RecordNames(id, doc);
        if doc.sha256.Some? && doc.blob.Some? {
          var digest, path := doc.sha256.value, doc.blob.value;
          if path == Blob(digest) && ValidBlob(id, digest) {
            RecordHolds(id, doc, data[path]);
            return Done(Some(digest));
          }
          if path in data {
            var _ :- UnlinkData(path);
          }
        }
        var _ :- UnlinkDoc(name);
      }
      return Done(None);
    }

    method Resume(id: Identity) returns (o: Outcome<nat>)
      requires Valid() && world.Resistant() && id.length > 0
      modifies this
      ensures Valid() && (o.Done? || o.Killed?)
      ensures if o.Killed? then old(budget) < 2 else old(budget) - 2 <= budget <= old(budget)
      ensures Spares(world.rangeId(id)) && KeepsBlobs(id)
      ensures old(VerifiedPrefix(id)) > 0 ==> o.Done? && budget == old(budget)
      ensures o.Done? ==> o.value == old(VerifiedPrefix(id)) == VerifiedPrefix(id) <= id.length
      ensures o.Done? && o.value > 0 ==>
                && world.InShard(id)
                && Partial(world.rangeId(id)) in data
                && data[Partial(world.rangeId(id))] == world.Truth(id)[..o.value]
    {
      hide Truthful, World.Resistant, World.InShard, World.IsDigest;
      var rid := world.rangeId(id);
      var partial, progress := Partial(rid), Progress(rid);
      if partial in data && progress in docs && docs[progress].Json? {
        if ValidProgress(id, docs[progress], data[partial]) {
          LedgerHolds(id, docs[progress], data[partial]);
          return Done(docs[progress].completed.value);
        }
        var _ :- UnlinkData(partial);
        var _ :- UnlinkDoc(progress);
      } else if partial in data || progress in docs {
        var _ :- UnlinkData(partial);
        var _ :- UnlinkDoc(progress);
      }
      return Done(0);
    }

    lemma {:induction false} LedgerHolds(id: Identity, doc: Doc, partial: Bytes)
      requires Truthful(world, Progress(world.rangeId(id)), doc) && world.Resistant()
      requires ValidProgress(id, doc, partial)
      ensures world.InShard(id) && partial == world.Truth(id)[..|partial|]
    {
      Pinned(world, id, partial);
    }

    /** The on-disk prefix of the range is the official one. */
    ghost predicate PrefixOnDisk(id: Identity, completed: nat)
      reads `data, `docs
    {
      && Partial(world.rangeId(id)) in data
      && |data[Partial(world.rangeId(id))]| == completed <= id.length
      && (completed > 0 ==>
            world.InShard(id) && data[Partial(world.rangeId(id))] == world.Truth(id)[..completed])
    }

    /** Over official bytes, the lengths alone decide what a ledger is worth. */
    lemma {:induction false} WorthOfLedger(id: Identity, m: nat)
      requires Valid() && PrefixOnDisk(id, m) && world.InShard(id)
      ensures VerifiedPrefix(id) == if InStep(id) then m else 0
    {
      var rid := world.rangeId(id);
      assert data[Partial(rid)] == world.Truth(id)[..m];
      if Progress(rid) in docs {
        assert Truthful(world, Progress(rid), docs[Progress(rid)]);
      }
    }

    lemma {:induction false} TruthGrows(id: Identity, completed: nat, prefix: Bytes, body: Bytes)
      requires world.InShard(id) && completed + |body| <= id.length && |prefix| == completed
      requires completed > 0 ==> prefix == world.Truth(id)[..completed]
      requires body == world.Truth(id)[completed..completed + |body|]
      ensures prefix + body == world.Truth(id)[..completed + |body|]
      ensures forall n: nat :: n <= |body| ==> prefix + body[..n] == world.Truth(id)[..completed + n]
    {
      var truth := world.Truth(id);
      assert prefix == truth[..completed];
      assert truth[..completed] + truth[completed..completed + |body|] == truth[..completed + |body|];
      forall n: nat | n <= |body| ensures prefix + body[..n] == truth[..completed + n] {
        assert body[..n] == truth[completed..completed + n];
      }
    }

    /** Append a response, then publish the digest of what is now on disk.  A process
        killed after its first appended byte and before the ledger is renamed leaves a
        partial file longer than the ledger says, which the next call will not trust. */
    method Extend(id: Identity, completed: nat, body: Bytes) returns (o: Outcome<()>)
      requires Valid() && PrefixOnDisk(id, completed) && body != [] && world.InShard(id)
      requires completed + |body| <= id.length && body == world.Truth(id)[completed..completed + |body|]
      modifies this
      ensures if old(budget) < 3 then o == Killed else o == Done(()) && budget == old(budget) - 3
      ensures Valid() && Spares(world.rangeId(id)) && KeepsBlobs(id)
      ensures o.Done? ==> PrefixOnDisk(id, completed + |body|) && VerifiedPrefix(id) == completed + |body|
      ensures o.Killed? ==>
                && Partial(world.rangeId(id)) in data
                && PrefixOnDisk(id, |data[Partial(world.rangeId(id))]|)
                && VerifiedPrefix(id) == (if InStep(id) then |data[Partial(world.rangeId(id))]| else 0)
      ensures o.Killed? && completed > 0 && completed == old(VerifiedPrefix(id)) ==>
                && VerifiedPrefix(id) == (if InStep(id) then completed else 0)
                && (old(budget) > 0 ==> !InStep(id))
    {
      var partial, progress := Partial(world.rangeId(id)), Progress(world.rangeId(id));
      TruthGrows(id, completed, data[partial], body);
      var written := Append(partial, body);
      if !written.Done? {
        WorthOfLedger(id, |data[partial]|);
        return written;
      }
      var published := WriteJsonAtomic(progress,
        Json(Some(id), Some(completed + |body|), Some(world.hash(data[partial])), None, None));
      assert PrefixOnDisk(id, completed + |body|);
      WorthOfLedger(id, completed + |body|);
      return published;
    }

    /** One turn of the fetch loop. */
    method FetchNext(id: Identity, size: int, transport: Transport, completed: nat, requestBytes: int)
      returns (o: Outcome<nat>)
      requires Valid() && transport.Honest(world) && 0 < requestBytes <= REQUEST_LIMIT
      requires 0 <= id.start && completed < id.length && id.start + id.length <= size
      requires PrefixOnDisk(id, completed)
      modifies this, transport
      ensures Valid() && Spares(world.rangeId(id)) && KeepsBlobs(id)
      ensures o.Done? ==>
                && o.value == Min(requestBytes, id.length - completed)
                && PrefixOnDisk(id, completed + o.value)
                && VerifiedPrefix(id) == completed + o.value
                && budget == old(budget) - 3
      ensures o.Killed? ==> old(budget) < 3 && Partial(world.rangeId(id)) in data
      ensures o.Killed? && completed > 0 && completed == old(VerifiedPrefix(id)) ==>
                && VerifiedPrefix(id) == (if InStep(id) then completed else 0)
                && (old(budget) > 0 ==> !InStep(id))
      ensures o.Raised? ==> data == old(data) && docs == old(docs) && FetchError(o.error)
      ensures o.Raised? && size == |world.shard(id.revision, id.shardPath)| ==> !transport.Serves(world)
    {
      hide ObjectDirectory.VerifiedPrefix, ObjectDirectory.Valid, ObjectDirectory.InStep, Truthful;
      var position, end := id.start + completed, id.start + id.length;
      var nextEnd := Min(position + requestBytes, end) - 1;
      var body :- FetchExactRange(id.revision, id.shardPath, size, transport, position, nextEnd);
      assert body == world.shard(id.revision, id.shardPath)[position..nextEnd + 1];
      SliceOfSlice(world.shard(id.revision, id.shardPath), id.start, id.start + id.length, completed, completed + |body|);
      var extended := Extend(id, completed, body);
      if !extended.Done? {
        return Killed;
      }
      return Done(|body|);
    }

    /** Open the partial file for appending, or anew when nothing of it is verified. */
    method Open(id: Identity, start: nat) returns (o: Outcome<()>)
      requires Valid() && start == VerifiedPrefix(id) && start <= id.length && (start > 0 ==> PrefixOnDisk(id, start))
      modifies this
      ensures Valid() && Spares(world.rangeId(id)) && KeepsBlobs(id)
      ensures o.Done? ==> PrefixOnDisk(id, start) && (start > 0 ==> start == VerifiedPrefix(id))
      ensures if o.Done? then budget + (if start == 0 then 1 else 0) == old(budget)
              else o.Killed? && start == 0 && old(budget) == 0
    {
      hide Truthful;
      if start == 0 {
        var _ :- Truncate(Partial(world.rangeId(id)));
      }
      return Done(());
    }

    /** Fetch what is missing.  A raised error never loses verified bytes.  A kill after
        a whole number of turns and before the next byte keeps all that was fetched; any
        other loses all of it. */
    method Fetch(id: Identity, size: int, transport: Transport, start: nat, requestBytes: int)
      returns (o: Outcome<Traffic>)
      requires Valid() && transport.Honest(world) && 0 < requestBytes <= REQUEST_LIMIT
      requires 0 <= id.start && 0 < id.length && id.start + id.length <= size
      requires start == VerifiedPrefix(id) && start <= id.length && (start > 0 ==> PrefixOnDisk(id, start))
      modifies this, transport
      ensures Valid() && Spares(world.rangeId(id)) && KeepsBlobs(id)
      ensures o.Done? ==>
                && PrefixOnDisk(id, id.length) && VerifiedPrefix(id) == id.length
                && o.value.responseBytes == id.length - start
                && o.value.requests == Requests(id.length - start, requestBytes)
                && o.value.maximumResponseBytes <= requestBytes
                && budget + 3 * o.value.requests + (if start == 0 then 1 else 0) == old(budget)
      ensures o.Killed? ==> old(budget) < 3 * Requests(id.length - start, requestBytes) + (if start == 0 then 1 else 0)
      ensures o.Killed? && start > 0 ==>
                && Partial(world.rangeId(id)) in data
                && VerifiedPrefix(id) == (if InStep(id) then start + old(budget) / 3 * requestBytes else 0)
                && (old(budget) % 3 != 0 ==> !InStep(id))
      ensures o.Raised? ==> VerifiedPrefix(id) >= start && FetchError(o.error)
      ensures o.Raised? && size == |world.shard(id.revision, id.shardPath)| ==> !transport.Serves(world)
    {
      hide Truthful, World.Resistant, Transport.Honest, Transport.Serves, World.InShard, World.IsDigest;
      hide ObjectDirectory.VerifiedPrefix, ObjectDirectory.Valid, ObjectDirectory.InStep, Requests;
      var completed: nat, requests: nat, maximum: nat, received: nat := start, 0, 0, 0;
      var ready := Open(id, start);
      if !ready.Done? {
        return ready.PropagateFailure();
      }
      while id.start + completed < id.start + id.length
        invariant Valid() && PrefixOnDisk(id, completed) && Spares(world.rangeId(id)) && KeepsBlobs(id)
        invariant completed == VerifiedPrefix(id) || completed == 0
        invariant completed >= start && received == completed - start && maximum <= requestBytes
        invariant completed < id.length ==> completed == start + requests * requestBytes
        invariant requests + Requests(id.length - completed, requestBytes) == Requests(id.length - start, requestBytes)
        invariant budget + 3 * requests + (if start == 0 then 1 else 0) == old(budget)
        decreases id.length - completed
      {
        var count := FetchNext(id, size, transport, completed, requestBytes);
        RequestsStep(id.length - completed, requestBytes);
        if !count.Done? {
          return count.PropagateFailure();
        }
        NextTurn(completed, start, requests, requestBytes);
        completed := completed + count.value;
        requests := requests + 1;
        received := received + count.value;
        maximum := Max(maximum, count.value);
      }
      NoRequests(requestBytes);
      return Done(Traffic(requests, maximum, received));
    }

    /** Move the finished partial file to the name of its digest. */
    method Adopt(id: Identity) returns (o: Outcome<Digest>)
      requires Valid() && world.Resistant() && id.length > 0 && PrefixOnDisk(id, id.length)
      modifies this
      ensures Valid() && Spares(world.rangeId(id)) && KeepsBlobs(id) && docs == old(docs)
      ensures if o.Done? then budget + 2 >= old(budget) else o.Killed? && old(budget) < 2
      ensures o.Done? ==> Holds(id, o.value) && Partial(world.rangeId(id)) !in data
      ensures o.Killed? ==> Lookup(data, Partial(world.rangeId(id))) == Lookup(old(data), Partial(world.rangeId(id)))
    {
      hide Truthful, World.Resistant;
      var partial := Partial(world.rangeId(id));
      assert world.Truth(id)[..id.length] == world.Truth(id);
      var digest := world.hash(data[partial]);
      if Blob(digest) in data {
        if !ValidBlob(id, digest) {
          var _ :- UnlinkData(Blob(digest));
          var _ :- RenameData(partial, Blob(digest));
        } else {
          Pinned(world, id, data[Blob(digest)]);
          var _ :- UnlinkData(partial);
        }
      } else {
        var _ :- RenameData(partial, Blob(digest));
      }
      return Done(digest);
    }

    /** Name the finished range by its digest, record it, and drop the ledger.  A process
        killed between the two leaves the blob without a record. */
    method Publish(id: Identity) returns (o: Outcome<Digest>)
      requires Valid() && world.Resistant() && id.length > 0
      requires PrefixOnDisk(id, id.length) && VerifiedPrefix(id) == id.length
      modifies this
      ensures Valid() && Spares(world.rangeId(id)) && KeepsBlobs(id)
      ensures if o.Done? then budget + 5 >= old(budget) else o.Killed? && old(budget) < 5
      ensures o.Done? ==> Holds(id, o.value) && Reusable(id)
      ensures o.Done? ==> Partial(world.rangeId(id)) !in data && Progress(world.rangeId(id)) !in docs
      ensures o.Killed? ==> VerifiedPrefix(id) == if InStep(id) then id.length else 0
      ensures o.Killed? && !InStep(id) ==> world.InShard(id) && Holds(id, world.hash(world.Truth(id)))
    {
      hide Truthful, World.Resistant, World.IsDigest;
      var digest :- Adopt(id);
      RecordIsTruthful(id, digest);
      var _ :- WriteJsonAtomic(Record(world.rangeId(id)),
        Json(Some(id), None, None, Some(digest), Some(Blob(digest))));
      var _ :- UnlinkDoc(Progress(world.rangeId(id)));
      return Done(digest);
    }

    lemma RecordIsTruthful(id: Identity, digest: Digest)
      requires Holds(id, digest)
      ensures Truthful(world, Record(world.rangeId(id)), Json(Some(id), None, None, Some(digest), Some(Blob(digest))))
    {
    }

    /** A returning call names a blob that holds exactly the official bytes, and leaves a
        record the next call will use.  It downloads exactly what was not verified. */
    twostate predicate Delivers(id: Identity, step: int, v: MaterializedRangeObject)
      requires step > 0
      reads `data, `docs
    {
      && v.path == Blob(v.sha256) && v.length == id.length && Holds(id, v.sha256) && Reusable(id)
      && (v.reused <==> old(Reusable(id)))
      && old(VerifiedPrefix(id)) <= id.length && v.maximumResponseBytes <= step
      && v.responseBytes == (if v.reused then 0 else id.length - old(VerifiedPrefix(id)))
      && v.requests == (if v.reused then 0 else Requests(id.length - old(VerifiedPrefix(id)), step))
      && (v.reused ==> data == old(data) && docs == old(docs))
      && (!v.reused ==> Partial(world.rangeId(id)) !in data && Progress(world.rangeId(id)) !in docs)
    }

    /** What a killed call with `life` mutations to live leaves of a verified prefix: all
        of it exactly when the partial file is as long as its ledger says, else nothing,
        though a partial file that is gone was already adopted as a blob.  While fetching,
        that is after a whole number of turns, before the next byte. */
    twostate predicate Survives(id: Identity, step: int, life: nat)
      requires step > 0
      reads `data, `docs
    {
      var before, rid := old(VerifiedPrefix(id)), world.rangeId(id);
      && before <= id.length && life < Mutations(id.length - before, step)
      && (before > 0 ==>
            && (VerifiedPrefix(id) >= before <==> InStep(id))
            && (VerifiedPrefix(id) == 0 <==> !InStep(id))
            && (Partial(rid) !in data ==> world.InShard(id) && Holds(id, world.hash(world.Truth(id)))))
      && (before > 0 && Record(rid) !in old(docs) && life < 3 * Requests(id.length - before, step) ==>
            && (life % 3 != 0 ==> VerifiedPrefix(id) == 0)
            && VerifiedPrefix(id) in {0, before + life / 3 * step})
    }

    /** Everything after the reuse check. */
    method Complete(id: Identity, size: int, transport: Transport, requestBytes: int)
      returns (o: Outcome<MaterializedRangeObject>)
      requires Valid() && world.Resistant() && transport.Honest(world) && 0 < requestBytes <= REQUEST_LIMIT
      requires 0 <= id.start && 0 < id.length && id.start + id.length <= size
      modifies this, transport
      ensures Valid() && Spares(world.rangeId(id)) && KeepsBlobs(id) && old(VerifiedPrefix(id)) <= id.length
      ensures o.Done? ==>
                var v := o.value;
                && v.path == Blob(v.sha256) && v.length == id.length && Holds(id, v.sha256) && Reusable(id)
                && !v.reused && v.maximumResponseBytes <= requestBytes
                && v.responseBytes == id.length - old(VerifiedPrefix(id))
                && v.requests == Requests(id.length - old(VerifiedPrefix(id)), requestBytes)
                && Partial(world.rangeId(id)) !in data && Progress(world.rangeId(id)) !in docs
                && 3 * v.requests <= old(budget)
      ensures o.Killed? ==>
                var before, rid, turns := old(VerifiedPrefix(id)), world.rangeId(id),
                                          Requests(id.length - old(VerifiedPrefix(id)), requestBytes);
                && old(budget) < 8 + 3 * turns
                && (before > 0 ==>
                      && (VerifiedPrefix(id) >= before <==> InStep(id))
                      && (VerifiedPrefix(id) == 0 <==> !InStep(id))
                      && (Partial(rid) !in data ==> world.InShard(id) && Holds(id, world.hash(world.Truth(id))))
                      && (old(budget) < 3 * turns ==>
                            && (old(budget) % 3 != 0 ==> VerifiedPrefix(id) == 0)
                            && VerifiedPrefix(id) in {0, before + old(budget) / 3 * requestBytes}))
      ensures o.Raised? ==> VerifiedPrefix(id) >= old(VerifiedPrefix(id)) && FetchError(o.error)
      ensures o.Raised? && size == |world.shard(id.revision, id.shardPath)| ==> !transport.Serves(world)
    {
      hide Requests, Truthful, ObjectDirectory.Valid, ObjectDirectory.Holds, ObjectDirectory.Reusable;
      hide World.Resistant, World.IsDigest, Transport.Honest, Transport.Serves;
      hide ObjectDirectory.VerifiedPrefix, ObjectDirectory.InStep;
      PrefixIsInStep(id);
      var completed :- Resume(id);
      var fetched := Fetch(id, size, transport, completed, requestBytes);
      if !fetched.Done? {
        PrefixIsInStep(id);
        TurnsAdd(old(budget) / 3, requestBytes);
        return fetched.PropagateFailure();
      }
      var traffic := fetched.value;
      var published := Publish(id);
      if !published.Done? {
        PrefixIsInStep(id);
        return published.PropagateFailure();
      }
      return Done(MaterializedRangeObject(Blob(published.value), published.value, id.length, false,
        traffic.requests, traffic.maximumResponseBytes, traffic.responseBytes));
    }

    /** A call for a range that passed the argument check. */
    method MaterializeRange(id: Identity, size: int, transport: Transport, requestBytes: int)
      returns (o: Outcome<MaterializedRangeObject>)
      requires Valid() && world.Resistant() && transport.Honest(world) && 0 < requestBytes <= REQUEST_LIMIT
      requires 0 <= id.start && 0 < id.length && id.start + id.length <= size
      modifies this, transport
      ensures Valid() && Spares(world.rangeId(id)) && KeepsBlobs(id)
      ensures o.Done? ==> Delivers(id, requestBytes, o.value) && 3 * o.value.requests <= old(budget)
      ensures o.Killed? ==> Survives(id, requestBytes, old(budget))
      ensures o.Raised? ==> VerifiedPrefix(id) >= old(VerifiedPrefix(id)) && FetchError(o.error)
      ensures o.Raised? && size == |world.shard(id.revision, id.shardPath)| ==> !transport.Serves(world)
      ensures old(Reusable(id)) ==> o.Done? && transport.calls == old(transport.calls)
    {
      hide Requests, Truthful, ObjectDirectory.Valid, ObjectDirectory.Holds, ObjectDirectory.Reusable;
      hide World.Resistant, World.IsDigest, Transport.Honest, Transport.Serves;
      hide ObjectDirectory.VerifiedPrefix, ObjectDirectory.InStep;
      PrefixIsInStep(id);
      var found := Reuse(id);
      PrefixIsInStep(id);
      if found.Killed? {
        return Killed;
      }
      if found.value.Some? {
        var digest := found.value.value;
        return Done(MaterializedRangeObject(Blob(digest), digest, id.length, true, 0, 0, 0));
      }
      o := Complete(id, size, transport, requestBytes);
    }

    lemma PrefixIsInStep(id: Identity)
      ensures VerifiedPrefix(id) > 0 ==> InStep(id)
      ensures 0 <= VerifiedPrefix(id) <= Max(0, id.length)
    {
    }

    method Materialize(snapshot: Snapshot, shardPath: string, start: int, length: int,
                       transport: Transport, chunkBytes: int)
      returns (o: Outcome<MaterializedRangeObject>)
      requires Valid() && world.Resistant() && transport.Honest(world)
      modifies this, transport
      ensures Valid()
      ensures o.Done? ==>
        var shard := world.shard(snapshot.revision, shardPath);
        && 0 <= start && 0 < length && start + length <= |shard|
        && o.value.path in data && data[o.value.path] == shard[start..start + length]
        && o.value.length == length && o.value.sha256 == world.hash(shard[start..start + length])
      ensures o == Raised(InvalidOfficialRangeObject) <==> !ValidRange(snapshot, shardPath, start, length, chunkBytes)
      ensures o != Raised(InvalidOfficialRangeObject) <==>
                && shardPath in snapshot.files && snapshot.files[shardPath].lfs.Some?
                && start >= 0 && length > 0 && start + length <= snapshot.files[shardPath].size && chunkBytes > 0
      ensures !ValidRange(snapshot, shardPath, start, length, chunkBytes) ==>
                data == old(data) && docs == old(docs) && transport.calls == old(transport.calls)
      ensures ValidRange(snapshot, shardPath, start, length, chunkBytes) ==>
        var id, step := IdentityOf(snapshot, shardPath, start, length), Min(chunkBytes, REQUEST_LIMIT);
        var size := snapshot.files[shardPath].size;
        && Spares(world.rangeId(id)) && KeepsBlobs(id)
        && (o.Done? ==> Delivers(id, step, o.value) && 3 * o.value.requests <= old(budget))
        && (o.Killed? ==> Survives(id, step, old(budget)))
        && (o.Raised? ==> VerifiedPrefix(id) >= old(VerifiedPrefix(id)) && FetchError(o.error))
        && (o.Raised? && size == |world.shard(snapshot.revision, shardPath)| ==> !transport.Serves(world))
        && (old(Reusable(id)) ==> o.Done? && transport.calls == old(transport.calls))
    {
      if !ValidRange(snapshot, shardPath, start, length, chunkBytes) {
        return Raised(InvalidOfficialRangeObject);
      }
      var requestBytes := Min(chunkBytes, REQUEST_LIMIT);
      var id := IdentityOf(snapshot, shardPath, start, length);
      o := MaterializeRange(id, snapshot.files[shardPath].size, transport, requestBytes);
    }
  }

  /** The argument check of a call. */
  predicate ValidRange(snapshot: Snapshot, shardPath: string, start: int, length: int, chunkBytes: int) {
    && shardPath in snapshot.files
    && snapshot.files[shardPath].lfs.Some?
    && start >= 0
    && length > 0
    && start + length >= start
    && start + length <= snapshot.files[shardPath].size
    && chunkBytes > 0
  }

  function IdentityOf(snapshot: Snapshot, shardPath: string, start: int, length: int): Identity
    requires shardPath in snapshot.files && snapshot.files[shardPath].lfs.Some?
  {
    Identity(snapshot.revision, shardPath, snapshot.files[shardPath].lfs.value, start, length)
  }

  /** Two calls share an identity, and so their files, only if they ask for the same bytes
      of the same pinned shard. */
  lemma {:induction false} IdentityIsTheRange(a: Snapshot, shardPath: string, start: int, length: int,
                                              b: Snapshot, otherPath: string, otherStart: int, otherLength: int)
    requires shardPath in a.files && a.files[shardPath].lfs.Some?
    requires otherPath in b.files && b.files[otherPath].lfs.Some?
    ensures IdentityOf(a, shardPath, start, length) == IdentityOf(b, otherPath, otherStart, otherLength) <==>
              && a.revision == b.revision && shardPath == otherPath
              && a.files[shardPath].lfs == b.files[otherPath].lfs
              && start == otherStart && length == otherLength
  {
  }

  /** A call that fetches `missing` bytes changes the directory fewer times than this. */
  function Mutations(missing: nat, step: int): nat
    requires step > 0
  {
    10 + 3 * Requests(missing, step)
  }

  lemma RequestsStep(n: nat, step: int)
    requires step > 0 && n > 0
    ensures Requests(n, step) == 1 + Requests(n - Min(step, n), step)
  {
  }

  lemma {:induction false} RequestsMonotone(m: nat, n: nat, step: int)
    requires step > 0 && m <= n
    ensures Requests(m, step) <= Requests(n, step)
  {
    if m > 0 {
      RequestsMonotone(m - Min(step, m), n - Min(step, n), step);
    }
  }

  lemma NoRequests(step: int)
    requires step > 0
    ensures Requests(0, step) == 0
  {
  }

  lemma TurnsAdd(turns: nat, step: int)
    requires step > 0
    ensures turns * step >= 0
  {
  }

  lemma NextTurn(completed: nat, start: nat, requests: nat, step: int)
    ensures completed == start + requests * step ==> completed + step == start + (requests + 1) * step
  {
  }

  /** The number of requests of at most `step` bytes that cover `n` bytes. */
  function Requests(n: nat, step: int): nat
    requires step > 0
  {
    if n == 0 then 0 else 1 + Requests(n - Min(step, n), step)
  }

  lemma {:induction false} RequestsIsCeiling(n: nat, step: int)
    requires step > 0
    ensures Requests(n, step) == (n + step - 1) / step
  {
    if n <= step {
      Division(n + step - 1, step, if n == 0 then 0 else 1, if n == 0 then step - 1 else n - 1);
      assert n != 0 ==> Requests(n, step) == 1 + Requests(0, step);
    } else {
      RequestsIsCeiling(n - step, step);
      var q := (n - 1) / step;
      Division(n + step - 1, step, q + 1, (n - 1) % step);
    }
  }

  /** The errors of a single range request. */
  predicate FetchError(e: K3XError) {
    e in {InvalidOfficialRange, OfficialBodyLimit, OfficialHttpStatus, OfficialContentRangeMismatch,
          OfficialRangeLengthMismatch}
  }

  /** One inclusive range request and its response checks. */
  method FetchExactRange(revision: string, path: string, size: int, transport: Transport, first: int, last: int)
    returns (o: Outcome<Bytes>)
    modifies transport
    ensures !o.Killed? && (o.Raised? ==> FetchError(o.error))
    ensures o.Done? <==>
              && 0 <= first <= last < size
              && last - first + 1 <= HEADER_LIMIT
              && Accepted(Request(revision, path, first, last), size,
                          transport.respond(old(transport.calls), Request(revision, path, first, last)))
    ensures o.Done? <==>
              && 0 <= first <= last < size && last - first + 1 <= 100_000_000
              && var response := transport.respond(old(transport.calls), Request(revision, path, first, last));
                 && response.status == 206 && response.contentRange == Some(ContentRange(first, last, size))
                 && |response.body| == last - first + 1
    ensures o.Done? ==> o.value == transport.respond(old(transport.calls), Request(revision, path, first, last)).body
  {
    if first < 0 || last < first || last >= size {
      return Raised(InvalidOfficialRange);
    }
    var length := last - first + 1;
    if length > HEADER_LIMIT {
      return Raised(OfficialBodyLimit);
    }
    var response := transport.Get(Request(revision, path, first, last));
    if response.status != 206 {
      return Raised(OfficialHttpStatus);
    }
    if response.contentRange != Some(ContentRange(first, last, size)) {
      return Raised(OfficialContentRangeMismatch);
    }
    if |response.body| != length {
      return Raised(OfficialRangeLengthMismatch);
    }
    return Done(response.body);
  }

  // ---------------------------------------------------------- whole runs

  /** What happens to an object directory over its life. */
  datatype Event =
    | Call(snapshot: Snapshot, shardPath: string, start: int, length: int, chunkBytes: int, budget: nat)
    | Damage(data: map<DataName, Bytes>, lost: set<DocName>, garbled: set<DocName>)
  {
    predicate Legal() {
      Call? && ValidRange(snapshot, shardPath, start, length, chunkBytes)
    }

    function Id(): Identity
      requires Legal()
    {
      IdentityOf(snapshot, shardPath, start, length)
    }

    /** The process lives long enough for a call that fetches the whole range. */
    predicate Unhurried()
      requires Legal()
    {
      budget >= Mutations(length, Min(chunkBytes, REQUEST_LIMIT))
    }

    /** The snapshot knows the size of the shard. */
    ghost predicate Sized(w: World)
      requires Legal()
    {
      snapshot.files[shardPath].size == |w.shard(snapshot.revision, shardPath)|
    }
  }

  /** What a returning call delivered: what it reported, and the blob's content then. */
  datatype Delivery = Delivery(report: MaterializedRangeObject, content: Bytes)

  datatype Entry = Damaged | Called(outcome: Outcome<Delivery>)

  /** What one call of a run owes its caller. */
  ghost predicate Answers(w: World, transport: Transport, event: Event, o: Outcome<Delivery>)
    requires event.Call?
  {
    && (o == Raised(InvalidOfficialRangeObject) <==> !event.Legal())
    && (o.Done? ==>
          var shard := w.shard(event.snapshot.revision, event.shardPath);
          && event.Legal() && 0 <= event.start && 0 < event.length && event.start + event.length <= |shard|
          && o.value.content == shard[event.start..event.start + event.length]
          && o.value.report.length == event.length && o.value.report.sha256 == w.hash(o.value.content))
    && (event.Legal() && o.Killed? ==> !event.Unhurried())
    && (event.Legal() && event.Unhurried() && event.Sized(w) && transport.Serves(w) ==> o.Done?)
  }

  /** Entry `i` follows a delivery of the same range with nothing in between. */
  ghost predicate Repeats(events: seq<Event>, log: seq<Entry>, i: nat)
    requires |log| <= |events|
  {
    && 0 < i < |log| && events[i].Legal() && events[i - 1].Legal() && events[i].Id() == events[i - 1].Id()
    && log[i - 1].Called? && log[i - 1].outcome.Done?
  }

  /** Arbitrary bytes under the range files, and documents lost or unreadable. */
  method Strike(directory: ObjectDirectory, event: Event)
    requires event.Damage? && directory.Valid()
    modifies directory
    ensures directory.Valid() && directory.data == event.data && directory.budget == old(directory.budget)
    ensures forall name :: Lookup(directory.docs, name) ==
              if name !in old(directory.docs) || name in event.lost then Option.None
              else if name in event.garbled then Some(Unreadable) else Some(old(directory.docs)[name])
  {
    directory.data := event.data;
    directory.docs := map name | name in directory.docs && name !in event.lost ::
      if name in event.garbled then Unreadable else directory.docs[name];
  }

  lemma {:induction false} Unhurriedly(event: Event, before: nat)
    requires event.Legal() && before <= event.length
    ensures event.Unhurried() ==> event.budget >= Mutations(event.length - before, Min(event.chunkBytes, REQUEST_LIMIT))
  {
    RequestsMonotone(event.length - before, event.length, Min(event.chunkBytes, REQUEST_LIMIT));
  }

  /** One call of a run. */
  method Serve(directory: ObjectDirectory, transport: Transport, event: Event) returns (o: Outcome<Delivery>)
    requires event.Call? && directory.Valid() && directory.world.Resistant() && transport.Honest(directory.world)
    modifies directory, transport
    ensures directory.Valid() && Answers(directory.world, transport, event, o)
    ensures o.Done? ==> event.Legal() && directory.Reusable(event.Id())
    ensures event.Legal() && old(directory.Reusable(event.Id())) ==>
              o.Done? && o.value.report.reused && o.value.report.requests == 0
  {
    hide ObjectDirectory.Valid, ObjectDirectory.Reusable, World.Resistant, Transport.Honest, Transport.Serves, Truthful;
    hide ObjectDirectory.VerifiedPrefix, ObjectDirectory.InStep, Mutations, World.IsDigest;
    directory.budget := event.budget;
    ghost var before: nat := if event.Legal() then directory.VerifiedPrefix(event.Id()) else 0;
    var called := directory.Materialize(event.snapshot, event.shardPath, event.start, event.length, transport, event.chunkBytes);
    if !called.Done? {
      if event.Legal() && before <= event.length {
        Unhurriedly(event, before);
      }
      return called.PropagateFailure();
    }
    return Done(Delivery(called.value, directory.data[called.value.path]));
  }

  /** Over any sequence of calls, each cut by a kill after any mutation, with any
      damage in between: every call is answered; a call that returns delivers the
      official bytes it asked for; one that is left alone and served returns; and one
      that repeats a delivery is served from disk. */
  method Run(world: World, transport: Transport, events: seq<Event>) returns (log: seq<Entry>)
    requires world.Resistant() && transport.Honest(world)
    modifies transport
    ensures |log| == |events|
    ensures forall i :: 0 <= i < |events| ==> (events[i].Call? <==> log[i].Called?)
    ensures forall i :: 0 <= i < |events| && events[i].Call? ==> Answers(world, transport, events[i], log[i].outcome)
    ensures forall i: nat :: i < |log| && Repeats(events, log, i) ==>
              log[i].outcome.Done? && log[i].outcome.value.report.reused && log[i].outcome.value.report.requests == 0
  {
    hide ObjectDirectory.Valid, ObjectDirectory.Reusable, World.Resistant, Transport.Honest, Answers;
    log := [];
    var directory := new ObjectDirectory(world);
    for i := 0 to |events|
      invariant directory.Valid() && directory.world == world && fresh(directory) && |log| == i
      invariant forall k :: 0 <= k < i ==> (events[k].Call? <==> log[k].Called?)
      invariant forall k :: 0 <= k < i && events[k].Call? ==> Answers(world, transport, events[k], log[k].outcome)
      invariant 0 < i && log[i - 1].Called? && log[i - 1].outcome.Done? ==>
        events[i - 1].Legal() && directory.Reusable(events[i - 1].Id())
      invariant forall k: nat :: k < i && Repeats(events, log, k) ==>
        log[k].outcome.Done? && log[k].outcome.value.report.reused && log[k].outcome.value.report.requests == 0
    {
      if events[i].Damage? {
        ghost var before := log;
        Strike(directory, events[i]);
        log := log + [Damaged];
        forall k: nat | k < i && Repeats(events, log, k) ensures Repeats(events, before, k) {
        }
      } else {
        ghost var before := log;
        var o := Serve(directory, transport, events[i]);
        log := log + [Called(o)];
        forall k: nat | k < i && Repeats(events, log, k) ensures Repeats(events, before, k) {
        }
      }
    }
  }

  // ------------------------------------------- a kill that loses a prefix

  /** A shard of three bytes, with digests that are the bytes themselves. */
  function TinyWorld(): World {
    World((b: Bytes) => b, (id: Identity) => [], (revision: string, path: string) => [1, 2, 3])
  }

  const TINY := Identity("r", "p", [], 0, 3)

  /** Answers every request with the bytes asked for. */
  function TinyAnswer(q: Request): HttpResponse {
    HttpResponse(206, Some(ContentRange(q.first, q.last, 3)),
                 if 0 <= q.first <= q.last < 3 then [1, 2, 3][q.first..q.last + 1] else [])
  }

  lemma {:induction false} TinyFacts(transport: Transport)
    requires transport.respond == ((n: nat, q: Request) => TinyAnswer(q))
    ensures TinyWorld().Resistant() && transport.Honest(TinyWorld()) && transport.Serves(TinyWorld())
    ensures TinyWorld().InShard(TINY) && TinyWorld().Truth(TINY) == [1, 2, 3] && TinyWorld().Truth(TINY)[..1] == [1]
    ensures Requests(2, 1) == 2
  {
    assert Requests(1, 1) == 1;
  }

  /** With one byte of three verified, a process killed right after the next byte has
      nothing verified any more. */
  method KillLosesPrefix() returns (directory: ObjectDirectory, ghost before: nat, o: Outcome<MaterializedRangeObject>)
    ensures before == 1 && o == Killed && directory.VerifiedPrefix(TINY) == 0
  {
    var transport := new Transport((n: nat, q: Request) => TinyAnswer(q));
    TinyFacts(transport);
    directory := new ObjectDirectory(TinyWorld());
    directory.data := map[Partial([]) := [1]];
    directory.docs := map[Progress([]) := Json(Some(TINY), Some(1), Some([1]), Option.None, Option.None)];
    directory.budget := 1;
    before := directory.VerifiedPrefix(TINY);
    hide World.Resistant, Transport.Honest, Transport.Serves;
    o := directory.MaterializeRange(TINY, 3, transport, 1);
  }
}
