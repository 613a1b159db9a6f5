# K3X converter: trust boundary and manufacturing pipeline

The converter turns byte ranges of a remote checkpoint into a verified K3X file
without ever holding the checkpoint.  This project models the parts in which that
promise can break, and proves what they are for.

| file | component |
|---|---|
| `RangeObject.dfy` | the crash-resumable fetcher of one byte range: partial file, progress ledger, content-addressed blob, record |
| `Safetensors.dfy`, `SourceManifest.dfy` | header parsing, exact tiling of the payload, chunked reads, the partition of tensors over shards |
| `OfficialSource.dfy`, `OfficialMoe.dfy`, `MoeSource.dfy` | planning an expert, relocating its bytes, ordering the tensors, assembling the shard |
| `Struct.dfy`, `Format.dfy`, `Offsets.dfy`, `Intervals.dfy`, `Layout.dfy`, `RootDigest.dfy`, `Reader.dfy`, `ReaderFields.dfy` | the K3X v1 format: codecs, the place of every field, extents, root digest, acceptance, and acceptance byte by byte |
| `TwoLayer.dfy`, `TwoLayerTrace.dfy`, `Manifest.dfy`, `LoneRun.dfy`, `Oracle.dfy` | the manufacturing schedule, its replay, the two artefacts derived from it, and a run one of them rejects |
| `Routing.dfy`, `RouteWeights.dfy` | the canonical route of a token and its contributions |
| `GraphCache.dfy` | the LRU simulation that predicts the CUDA graph-cache counters |
| `Wrappers.dfy`, `Arithmetic.dfy`, `Streams.dfy` | shared vocabulary, products and quotients, streams with short reads |

Loops and objects of the source are methods and classes here, each proved against
a specification function or predicate; pure expressions are functions.  Digests
and checksums are arbitrary functions.  The fetcher rests on two hypotheses: no other
string *of the same length* has the digest of a prefix of an official range
(`World.Resistant`), and a response that passes the range checks carries the shard's
own bytes of that range (`Transport.Honest`, the trust the code puts in its pinned
transport).  JSON is decoded data: a document that does not decode, or whose field is
missing or mistyped, is a value of the model.
The text printer and parser are parameters, tied by "decoding what was printed
gives the same members in some order" (`PrintsBack`).  A read returns any nonempty
prefix of what was asked until the data ends.  Numeric kernels are arbitrary
functions; scores and contributions are reals.

## Where the code does less than its design asks

Each is an exact condition for all inputs, with an input on the failing side.

* The assembler accepts tensor names that the header parser reserves.  A shard it
  writes is readable exactly when no name starts with `__` and the header stays
  within the reader's limit of 100 000 000 bytes (`AssembledIsAccepted`;
  `ReservedNameIsRefused`, `LongHeaderIsRefused`).
* A missing or misplaced unpacked shape is noticed only after the shard has replaced
  the one before it (`AssembleShard`; `MissingShapeIsLate`).
* The replay accepts routes that the closure tool rejects.  A manufactured manifest
  is accepted exactly when every route has sixteen experts and no zero contribution
  (`RunIsAccepted`; `LoneRunIsRejected`).
* The dtype length check raises exactly when the shape has a dimension and its length
  exceeds the data, so an oversized scalar is left to the caller's own comparison
  (`KnownDtypeLength`; `ScalarPasses`).
* A killed fetch keeps its verified prefix exactly when the partial file is as long as
  the ledger says.  From the first appended byte to the rename of the ledger, two
  mutations of every three, a kill loses all of it (`Survives`; `KillLosesPrefix`).
* A canonical route is a function of the scores exactly when the k-th and the next
  score differ (`RouteIsDetermined`; `TiedPair`).
* The contributions of a route sum to slightly less than one; the replay's tolerance
  holds exactly when the selected scores do not all but vanish (`RouteIsValid`;
  `VanishingScores`).
* An LRU cache never hits on a cyclic trace longer than its capacity, however often
  the trace repeats (`CyclicCounters`; `TwoKeysThrash`).

## Model

| member | source | states |
|---|---|---|
| RangeObject.ObjectDirectory.Materialize | converter/k3x_converter/official_moe.py:208-346 | The argument error is raised exactly on bad arguments, and then nothing changes; any other call delivers, survives a kill, or raises as the rows below say; every surviving document still tells the truth; other ranges keep their partial files, ledgers, records and blobs; reuse touches neither files nor network; a raised error keeps the verified prefix and cannot happen against a remote that serves every range.  What a returning call delivers is stated on its own arguments: the file it names holds the shard's bytes from `start` to `start + length`, under their digest, and reports that length |
| RangeObject.ObjectDirectory.MaterializeRange | converter/k3x_converter/official_moe.py:247-346 | A call that returns names a blob holding exactly the official bytes and leaves a record the next call reuses, after exactly the requests and bytes the verified prefix leaves to fetch (`Delivers`).  A killed call keeps a verified prefix exactly when the partial file is as long as its ledger says, and otherwise loses all of it; counted in mutations, a kill while fetching keeps it only after a whole number of turns, before the next byte; a partial file that is gone was already adopted as a blob, though without a record (`Survives`) |
| RangeObject.ObjectDirectory.Complete | converter/k3x_converter/official_moe.py:266-346 | The same for the phases after the reuse check |
| RangeObject.Run | converter/k3x_converter/official_moe.py:247-346 | Over any sequence of calls, each killed after any mutation, with the range files damaged at will and documents lost or garbled in between: every call is answered; one that returns delivers the shard's bytes from its own `start` to `start + length`; the argument error comes exactly on bad arguments; a call that lives long enough (a bound in requests) against a serving remote returns; and one that repeats a delivery is served from disk without a request |
| RangeObject.KillLosesPrefix | converter/k3x_converter/official_moe.py:296-316 | One byte of three is verified, the process dies right after the next byte, and nothing is verified any more |
| RangeObject.Serve | converter/k3x_converter/official_moe.py:208-346 | One call of a run, whatever the directory was left in: what it delivers is the slice of the shard that its arguments name |
| RangeObject.IdentityIsTheRange | converter/k3x_converter/official_moe.py:231-241 | Two calls share an identity exactly when revision, path, LFS digest, start and length all agree |
| RangeObject.ObjectDirectory.Reuse | converter/k3x_converter/official_moe.py:247-264 | A record is used exactly when its blob has the right name, length and digest, and then the blob is the official range; otherwise the record and the blob it names go, and no progress is lost |
| RangeObject.ObjectDirectory.Resume | converter/k3x_converter/official_moe.py:266-287 | The resumed position is the verified prefix, never more than the range, and the bytes kept are official bytes |
| RangeObject.ObjectDirectory.FetchNext | converter/k3x_converter/official_moe.py:297-316 | One turn appends one nonempty response of at most the request size and republishes the ledger; a kill anywhere leaves truthful documents |
| RangeObject.ObjectDirectory.Fetch | converter/k3x_converter/official_moe.py:289-316 | The loop ends with the whole range on disk after exactly the ceiling of missing over request size requests and three mutations a turn; a kill keeps what whole turns fetched, or nothing |
| RangeObject.ObjectDirectory.Publish | converter/k3x_converter/official_moe.py:318-337 | Publication leaves a blob with the official bytes under their digest and a reusable record, also over a damaged blob of the same name; a process killed in between keeps the prefix, or leaves the blob without a record |
| RangeObject.ObjectDirectory.Extend | converter/k3x_converter/official_moe.py:301-316 | Appending a response and republishing the ledger extends the verified prefix by the response; a process killed after the first byte and before the rename leaves a prefix that is not trusted |
| RangeObject.ObjectDirectory.SparedPrefix | converter/k3x_converter/official_moe.py:243-245 | A call for one range never costs another range its verified prefix |
| RangeObject.ObjectDirectory.SparedObject | converter/k3x_converter/official_moe.py:247-264 | A call for one range keeps the finished objects of all others, unless two ranges of different lengths share a digest |
| RangeObject.ObjectDirectory.WorthOfLedger | converter/k3x_converter/official_moe.py:268-281 | Over official bytes the lengths alone decide what a ledger is worth |
| RangeObject.ObjectDirectory.Adopt | converter/k3x_converter/official_moe.py:320-332 | The finished partial file becomes the blob of its digest, whether one was there, damaged or not |
| RangeObject.ObjectDirectory.Open | converter/k3x_converter/official_moe.py:292-293 | The partial file is kept when part of it is verified and truncated otherwise |
| RangeObject.ObjectDirectory.WriteJsonAtomic | converter/k3x_converter/official_moe.py:190-197 | A document is replaced whole or not at all, and nothing else is, whenever the process dies |
| RangeObject.ObjectDirectory.Append | converter/k3x_converter/official_moe.py:301-303 | A killed write leaves a torn prefix; a finished one appends the body |
| RangeObject.RequestsIsCeiling | converter/k3x_converter/official_moe.py:294-308 | The number of requests is the ceiling of the missing bytes over the request size |
| RangeObject.FetchExactRange | converter/k3x_converter/official_source.py:519-545 | Succeeds exactly when the inclusive range lies in the file, fits the limit, and the response has status 206, the exact Content-Range and the exact length; the body is returned unchanged |
| RangeObject.Strike | converter/k3x_converter/official_moe.py:247-287 | Exactly the named documents are lost or garbled, the range files are replaced at will, and the invariant the next call relies on holds |
| Safetensors.KnownDtypeLength | converter/k3x_converter/safetensors_reader.py:53-64 | It raises exactly when the shape has a dimension and item size times the product of the shape exceeds the data; otherwise it returns that product, at four bytes a value for F32, two for BF16 and one for U8 |
| Arithmetic.ProductOfParts | converter/k3x_converter/safetensors_reader.py:59-64 | The product of a shape: one dimension is its own, and shapes side by side multiply |
| Safetensors.ScalarPasses | converter/k3x_converter/safetensors_reader.py:59-64 | Four bytes without dimensions pass the length check against three bytes of data |
| Safetensors.CheckMember | converter/k3x_converter/safetensors_reader.py:91-119 | A member passes exactly when it is metadata of strings, or a well-named tensor with an extent inside the data and, for a known dtype, the exact length |
| Safetensors.CollectMembers | converter/k3x_converter/safetensors_reader.py:87-124 | The first loop succeeds exactly when every member passes, and collects all tensors and all nonempty ranges |
| Safetensors.SweepContiguous | converter/k3x_converter/safetensors_reader.py:125-135 | The cursor sweep accepts exactly the contiguous lists |
| Safetensors.ParseHeader | converter/k3x_converter/safetensors_reader.py:87-135 | A header is accepted if and only if its members are well formed and the nonempty tensors tile the data: every byte in exactly one range and no range outside |
| Intervals.SweepIsTiling | converter/k3x_converter/safetensors_reader.py:125-135 | Sorting and sweeping with a cursor decides exactly the tilings, for nonempty ranges in any order |
| Intervals.SortPermutes | converter/k3x_converter/safetensors_reader.py:125-125 | Sorting keeps every range with its multiplicity and orders them |
| Intervals.SortedUnique | converter/k3x_converter/format.py:296-296 | Two sorted lists of the same ranges are the same list |
| Safetensors.TensorsAre | converter/k3x_converter/safetensors_reader.py:122-124 | The result maps exactly the tensor members, each with its dtype, shape, length and its extent shifted behind the header |
| Safetensors.EveryByteOwnedOnce | converter/k3x_converter/safetensors_reader.py:125-135 | In an accepted shard every data byte belongs to exactly one tensor |
| Safetensors.OrderOfMembers | converter/k3x_converter/safetensors_reader.py:87-135 | Member order does not change acceptance |
| Safetensors.OrderOfTensors | converter/k3x_converter/safetensors_reader.py:87-124 | Member order does not change the tensors read |
| Safetensors.InspectShard | converter/k3x_converter/safetensors_reader.py:138-160 | A file is accepted exactly when its length prefix fits the limit and the file and its header is accepted against the file size |
| Safetensors.ShardByFields | converter/k3x_converter/safetensors_reader.py:87-160 | Acceptance of a file spelled out: length prefix, header limit, distinct names, metadata of strings, tensors inside the data with the literal item sizes, and the tiling |
| Safetensors.IterTensorChunks | converter/k3x_converter/safetensors_reader.py:163-174 | The chunks are nonempty, within the bound, and together the tensor's bytes, for every chunk size and schedule of short reads; a file too short raises |
| Streams.ByteStream.Read | converter/k3x_converter/safetensors_reader.py:163-174 | A read returns the next bytes, at most as many as asked, and none only at the end |
| SourceManifest.AddShard | converter/k3x_converter/source_manifest.py:93-96 | A shard is added exactly when none of its tensors was claimed before and the map assigns every one of them to it |
| SourceManifest.InspectManifestTensors | converter/k3x_converter/source_manifest.py:82-99 | A manifest is accepted if and only if the tensor sets of its shards partition the weight map along the map |
| SourceManifest.EverySourceByteMapped | converter/k3x_converter/source_manifest.py:88-99 | In an accepted source every data byte of every referenced shard belongs to exactly one mapped tensor |
| OfficialSource.PlanExpert | converter/k3x_converter/official_source.py:584-648 | Succeeds exactly when all six tensors are listed in the shard with their exact layout and abut; the plan is then those tensors and their joint range.  Under literal names: w1 is planned as gate, w2 as down, w3 as up, weights and scales each |
| OfficialSource.CollectPlanned | converter/k3x_converter/official_source.py:607-634 | The loop succeeds exactly when the index and the header list all six tensors, and plans each with its offset |
| OfficialSource.NamesAreMatched | converter/k3x_converter/official_source.py:594-626 | Of the six tensors of a plan, in order: the literal official suffix, the literal canonical suffix that goes with it, role, shape and length, and that place and dtype are those the header gives to the official name |
| OfficialSource.CanonicalIsFree | converter/k3x_converter/official_source.py:598-600 | A canonical name is never one the parser reserves |
| OfficialSource.CumulativeIsRelative | converter/k3x_converter/official_source.py:706-717 | Abutting tensors make the running header offset equal to the offset inside the payload |
| OfficialSource.ExpertCoversPayload | converter/k3x_converter/official_source.py:627-648 | The six pieces, end to end, are the payload, without gap or overlap |
| OfficialSource.MicroshardHeader | converter/k3x_converter/official_source.py:706-716 | The cursor loop prints the header of the relocated tensors |
| OfficialSource.TensorDigests | converter/k3x_converter/official_source.py:790-795 | The digest recorded for a tensor is that of its official bytes |
| OfficialSource.WriteMicroshard | converter/k3x_converter/official_source.py:809-820 | Prefix and payload are written whole, and the largest chunk is the bound or the payload |
| OfficialSource.MaterializeExpertSlice | converter/k3x_converter/official_source.py:765-823 | Succeeds exactly when the file is pinned and the range answered; the file is then the shard assembled from the official payload, with the official digest of every tensor |
| OfficialSource.AssembledHolds | converter/k3x_converter/official_source.py:706-717 | A tensor assembled from official bytes reads back as official bytes |
| OfficialSource.MicroshardHasOfficialBytes | converter/k3x_converter/official_source.py:706-823 | Expert relocation is exact: the parser accepts the microshard whenever its header fits the reader's limit, and every tensor in it has its official bytes, dtype and shape |
| OfficialSource.MicroshardFilesByRole | converter/k3x_converter/official_source.py:594-823 | By literal names: what is read back under `.gate.` has the bytes the official header gives to `.w1.`, `.down.` those of `.w2.`, `.up.` those of `.w3.`, weights and scales each |
| OfficialMoe.BuildSourceTensors | converter/k3x_converter/official_moe.py:349-423 | Succeeds exactly when the object sets equal the plan and the selection, in order, and every object fits what it stands for; the list is six shared tensors, the experts in selection order as gate, up, down, then the other shared tensors, with unpacked shapes for packed weights only |
| OfficialMoe.AddAlways | converter/k3x_converter/official_moe.py:365-381 | Shared tensors are added at offset 0 of their objects, and only when the lengths agree |
| OfficialMoe.AddExpert | converter/k3x_converter/official_moe.py:405-419 | An expert's tensors are added as gate, up, down, each relative to its payload, packed ones with the shape of their role |
| OfficialMoe.AddRole | converter/k3x_converter/official_moe.py:406-419 | The tensors of one role, in plan order, relocated, with the shape the role unpacks to |
| OfficialMoe.AddExperts | converter/k3x_converter/official_moe.py:388-419 | The loop succeeds exactly when every selected expert's plan and object match, and adds them in selection order |
| OfficialMoe.BuiltInOrder | converter/k3x_converter/official_moe.py:380-423 | Where every tensor of a build stands: shared tensors 0 to 5, then six pieces an expert in selection order, then the other shared tensors |
| OfficialMoe.ExpertsInOrder | converter/k3x_converter/official_moe.py:388-419 | Piece q of the j-th selected expert is entry 6j + q: gate, up and down weights and scales, out of that expert's own object |
| OfficialMoe.PackedIsHalf | converter/k3x_converter/official_moe.py:383-419 | A packed weight unpacks to twice its own second dimension; scales unpack to nothing |
| OfficialMoe.PlannedOrder | converter/k3x_converter/official_moe.py:399-406 | The role grouping is the plan's order with its last two pairs exchanged, two tensors a role |
| OfficialMoe.ReorderedCoversPayload | converter/k3x_converter/official_moe.py:388-419 | The reordered pieces still cover the payload exactly once |
| OfficialMoe.AllUsable | converter/k3x_converter/official_moe.py:349-423 | Every tensor of a build over delivered objects passes the checks of the assembler, unpacked shape included |
| OfficialMoe.FetchedIsDelivered | converter/k3x_converter/official_moe.py:318-346 | What a returning fetch leaves is the range the build stands on |
| OfficialMoe.OfficialBytesSurvive | converter/k3x_converter/official_moe.py:349-508 | From the official shard to the assembled one: when every object of a build was fetched, the assembler takes the built list, the parser accepts its shard, and every tensor read back has its official bytes |
| MoeSource.CopyPiece | converter/k3x_converter/official_moe.py:494-505 | Bounded reads copy exactly the piece, whatever the short reads |
| MoeSource.LayOut | converter/k3x_converter/official_moe.py:458-481 | The metadata loop succeeds exactly when every tensor is good and lays them out one after another |
| MoeSource.WritePieces | converter/k3x_converter/official_moe.py:493-505 | The write loop emits the pieces end to end, each under the digest of exactly its bytes |
| MoeSource.AssembleShard | converter/k3x_converter/official_moe.py:426-523 | A shard is written exactly when the arguments and every tensor are good; it is header length, header and pieces, and each digest is that of its piece; the call returns exactly when, besides, unpacked shapes are given for packed weights and for nothing else, which is checked only once the shard is in place |
| MoeSource.Describe | converter/k3x_converter/official_moe.py:510-523 | The manifest loop succeeds exactly when every unpacked shape is in place, and lists packed weights by their base, scales not at all |
| MoeSource.ScaleIsSkipped | converter/k3x_converter/official_moe.py:512-513 | A name that ends in `.weight_scale` is not listed, with or without a shape |
| MoeSource.PackedByBase | converter/k3x_converter/official_moe.py:514-519 | A name that ends in `.weight_packed` is listed without that ending, and is accepted exactly with a shape |
| MoeSource.OtherByName | converter/k3x_converter/official_moe.py:520-523 | Any other name is listed as it is, and is accepted exactly without a shape |
| MoeSource.OrderOfParts | converter/k3x_converter/official_moe.py:510-523 | The list of tensors written one after the other is the lists one after the other |
| MoeSource.ShapeOfPacked | converter/k3x_converter/official_moe.py:510-520 | No packed weight's shape is overwritten by another's |
| MoeSource.HeaderAccepted | converter/k3x_converter/safetensors_reader.py:87-135 | A printed header is accepted exactly when no tensor name is reserved |
| MoeSource.AssembledIsAccepted | converter/k3x_converter/official_moe.py:458-508 | An assembled shard is accepted exactly when its header fits the reader's limit and no tensor name is reserved |
| MoeSource.ReservedNameIsRefused | converter/k3x_converter/official_moe.py:458-508 | A shard of one byte under a reserved name is assembled and then refused |
| MoeSource.LongHeaderIsRefused | converter/k3x_converter/official_moe.py:487-492 | So is one whose header is a byte beyond the reader's limit |
| MoeSource.MissingShapeIsLate | converter/k3x_converter/official_moe.py:508-518 | A packed weight without its shape passes every check before the write |
| MoeSource.AssembledReadsBack | converter/k3x_converter/official_moe.py:458-508 | Every tensor parsed from an assembled shard has the dtype, shape and bytes of the piece it was built from |
| MoeSource.ReadAssembled | converter/k3x_converter/safetensors_reader.py:138-174 | Assemble, inspect and iterate: the chunks concatenate to the object's slice for every copy size, chunk size and schedule of short reads |
| Struct.UnpackPack | converter/k3x_converter/format.py:83-105 | Every packed tuple reads back, signed fields included |
| Struct.PackUnpack | converter/k3x_converter/format.py:108-136 | Every byte string of the right size is the packing of what it unpacks to |
| Struct.PackRecord | converter/k3x_converter/format.py:160-171 | Packing in place into a zeroed block writes exactly the two formats and zeros, or refuses a value that does not fit |
| Format.TensorCodec | converter/k3x_converter/format.py:160-197 | Bytes decode to a tensor record if and only if the record is canonical and encodes to those bytes, unused dimensions and signed ids included |
| Format.LayerCodec | converter/k3x_converter/format.py:212-229 | The same for layer records |
| Format.ExpertCodec | converter/k3x_converter/format.py:243-258 | The same for expert records |
| Format.DirectoryCodec | converter/k3x_converter/format.py:261-276 | A directory decodes to items if and only if it encodes them |
| Format.SuperblockCodec | converter/k3x_converter/format.py:83-136 | A block decodes to a superblock if and only if it is the encoding of a canonical one |
| Format.SuperblockLayout | converter/k3x_converter/format.py:83-105 | Which block of an encoded superblock lies where; the rows below split the blocks into fields |
| Offsets.ByteOrder | converter/k3x_converter/format.py:83-105 | Byte j of a packed integer is base-256 digit j of its residue, lowest first, so byte order and sign are fixed |
| Offsets.TensorHeadLayout | converter/k3x_converter/format.py:160-171 | The literal offset and width of each of the first ten fields of a tensor record: identifier, role, dtype and quantization codes, rank, flags, layer before expert |
| Offsets.TensorTailLayout | converter/k3x_converter/format.py:160-171 | The same for its four dimensions, absent ones zero, its extents, lengths and checksums, and sixteen zero bytes |
| Offsets.ReadableTensor | converter/k3x_converter/format.py:160-197 | A tensor record can be read from some bytes exactly when each field is in its literal range, with at most four dimensions, no role and no flags |
| Offsets.LayerLayout | converter/k3x_converter/format.py:212-218 | The literal offset and width of every field of a layer record |
| Offsets.ReadableLayer | converter/k3x_converter/format.py:221-229 | A layer record can be read exactly when its kinds are 1 or 2 and its fields in range |
| Offsets.ExpertLayout | converter/k3x_converter/format.py:243-249 | The literal offset and width of every field of an expert record, gate before up before down |
| Offsets.ReadableExpert | converter/k3x_converter/format.py:252-258 | An expert record can be read exactly when it has no flags and its fields are in range |
| Offsets.DirectoryLayout | converter/k3x_converter/format.py:261-276 | Tag, record size and count of a directory, and where its i-th item stands |
| Offsets.SuperblockHead | converter/k3x_converter/format.py:83-105 | Magic, version 1.0, sizes, state and features at their literal offsets |
| Offsets.SuperblockBody | converter/k3x_converter/format.py:83-105 | The ten places and lengths, both digests, the padding and the checksum at their literal offsets |
| Offsets.ReadableSuperblock | converter/k3x_converter/format.py:108-136 | A superblock can be read exactly when its digests have their sizes, its fields are in range and no unknown feature is required |
| Format.EncodeTensor | converter/k3x_converter/format.py:160-171 | The in-place encoder writes the record's byte string or raises |
| Format.EncodeLayer | converter/k3x_converter/format.py:212-218 | The in-place encoder writes the record's byte string or raises |
| Format.EncodeExpert | converter/k3x_converter/format.py:243-249 | The in-place encoder writes the record's byte string or raises |
| Format.EncodeSuperblock | converter/k3x_converter/format.py:83-105 | The in-place encoder writes the block's byte string, checksum last, or raises |
| Format.FillIdentity | converter/k3x_converter/format.py:88-103 | Identity, offsets and digests are written in place, or the first value that does not fit stops the encoder |
| Layout.ValidateExtentLayout | converter/k3x_converter/format.py:279-299 | Accepts if and only if empty extents are at 0, the others aligned and inside the file, and no byte belongs to two extents; otherwise the error is that of the first misplaced extent, or overlap when all are placed |
| Layout.LayoutByFields | converter/k3x_converter/format.py:279-299 | Acceptance on the fields of the records: each data and each auxiliary extent is placed, no tensor's data meets its own auxiliary data, and no byte is stored by two tensors |
| Layout.Place | converter/k3x_converter/format.py:284-295 | The checks on one extent and their error |
| Layout.CollectRanges | converter/k3x_converter/format.py:282-295 | The first loop returns the ranges of all nonempty extents, or the error of the first misplaced one |
| Layout.Sweep | converter/k3x_converter/format.py:297-299 | The second loop accepts exactly the lists whose neighbours do not overlap |
| Layout.OrderIrrelevant | converter/k3x_converter/format.py:279-299 | Acceptance does not depend on the order of the records |
| Layout.StoredFits | converter/k3x_converter/format.py:279-299 | Accepted extents together hold no more bytes than the file |
| Intervals.AdjacentIsPairwise | converter/k3x_converter/format.py:296-299 | On sorted nonempty ranges, checking neighbours checks every pair |
| Intervals.ApartSort | converter/k3x_converter/format.py:296-299 | Sorting does not change whether ranges are pairwise disjoint |
| Intervals.DisjointVolume | converter/k3x_converter/format.py:296-299 | Disjoint ranges inside a file hold at most the file |
| RootDigest.RootSha256 | converter/k3x_converter/format.py:302-317 | The chunked digest is that of exactly the file with both windows cleared, for every chunk size and schedule of short reads; a chunk size of -1 absorbs the whole stream instead; it raises exactly on a short file, a zero chunk size or a smaller one |
| RootDigest.ReadChunk | converter/k3x_converter/format.py:307-309 | One read returns the next bytes, everything for the size -1, and refuses a smaller size |
| RootDigest.ClearWindow | converter/k3x_converter/format.py:310-314 | Clearing one window in place clears exactly the part of it that the chunk holds |
| RootDigest.MaskedEqual | converter/k3x_converter/format.py:310-314 | The digest sees zeros at 200 to 231 and 4092 to 4095 and the file everywhere else; two files look alike exactly when they agree there |
| RootDigest.RootFieldIsFree | converter/k3x_converter/format.py:302-317 | Writing any root digest into the superblock leaves the root digest of the file unchanged |
| RootDigest.MaskPlusRootIsWhole | converter/k3x_converter/format.py:302-317 | What the digest sees, together with the stored root, determines every byte of a decodable file |
| Reader.CheckBf16 | converter/k3x_converter/reader.py:73-92 | The scan accepts exactly when every BF16 record is plain and says whether there is one |
| Reader.ReadExact | converter/k3x_converter/reader.py:30-38 | A read succeeds exactly when the range lies in the file, and returns exactly it |
| Reader.CheckContents | converter/k3x_converter/reader.py:102-110 | Succeeds exactly when every tensor's stored checksums hold of the bytes it points at |
| Reader.Open | converter/k3x_converter/reader.py:51-116 | A file is accepted exactly when it is sound: the encoding of a finished superblock and of three directories of canonical records, features declared, extents disjoint, checksums and both digests right |
| ReaderFields.SoundByFields | converter/k3x_converter/reader.py:73-116 | Acceptance on the fields: every BF16 record plain and announced by the feature, an announced feature used, extents laid out, contents intact, both digests right |
| ReaderFields.AcceptedDigests | converter/k3x_converter/reader.py:52-69 | Acceptance on the bytes: state 1 and the file's own length at their offsets, the digest of the four regions in order at 168, the root digest of the masked file at 200, the checksum at 4092 |
| ReaderFields.RegionsByFields | converter/k3x_converter/reader.py:58-69 | The regions are exactly the slices of the file the superblock names, the configuration 256 bytes long |
| ReaderFields.IntactByFields | converter/k3x_converter/reader.py:102-110 | The content check of one tensor on its own data and its own auxiliary data |
| ReaderFields.AcceptedRecords | converter/k3x_converter/reader.py:70-98 | Record i of each kind stands in the region for that kind, behind sixteen bytes of header, 128 bytes a tensor and 64 a layer or expert |
| Reader.DescribesIsEncoding | converter/k3x_converter/reader.py:55-99 | The directories decode to records from a file if and only if the file is the encoding of those records: superblock, the regions it names, and every record in them |
| Reader.TensorDirectoryCodec | converter/k3x_converter/reader.py:70-71 | Bytes decode to tensor records if and only if they are the directory of those records, all canonical |
| Reader.LayerDirectoryCodec | converter/k3x_converter/reader.py:95-96 | The same for layer records |
| Reader.ExpertDirectoryCodec | converter/k3x_converter/reader.py:97-98 | The same for expert records |
| Reader.DescribedParts | converter/k3x_converter/reader.py:55-72 | A described file starts with a canonical superblock of the file's own length, and its tensor records have unsigned places |
| Reader.AcceptedTensorsRead | converter/k3x_converter/reader.py:118-127 | After acceptance every tensor reads, with exactly the bytes at its recorded places and their stored checksums, and all together fit the file |
| Reader.RootNamesTheFile | converter/k3x_converter/reader.py:114-115 | Two accepted files with the same stored root are the same file, when the digest identifies what it absorbed |
| TwoLayer.FinishStep | converter/k3x_converter/official_two_layer.py:588-624 | Succeeds exactly when the layer matches and the loaded experts are distinct, valid and contain the route; the result is that of the full bank, so any such expert set gives the same step; state, KDA digest and route are those of the preparation |
| TwoLayer.MixtureOfLongerRoute | converter/k3x_converter/official_two_layer.py:603-613 | The mixture of a route extended by one expert adds that expert's own contribution times its own output; the empty route is zero |
| TwoLayer.MixtureIsWeightedSum | converter/k3x_converter/official_two_layer.py:603-613 | With componentwise kernels, entry j of the mixture is the sum over the route of contribution i times the output of expert i at j |
| TwoLayer.FinishIgnoresOthers | converter/k3x_converter/official_two_layer.py:604-613 | A step depends only on the routed experts |
| TwoLayer.FetchMissing | converter/k3x_converter/official_two_layer.py:978-993 | Only experts not planned yet are fetched, each once, and the plans become the first-use union |
| TwoLayer.Step | converter/k3x_converter/official_two_layer.py:975-1003 | One step with the experts fetched so far equals the step of the dataflow, and fails exactly when its route cannot be served |
| TwoLayer.Manufacture | converter/k3x_converter/official_two_layer.py:963-1012 | The position-major loop with one state per layer and lazy fetching computes Out(i, l) = exec(l, Out(i, l - 1), State(i - 1, l)) with all experts preloaded, for any number of positions and layers; it fetches each selected expert exactly once, and fails exactly when the dataflow routes to an expert that cannot be served.  Every entry i * layers + l of its log is, in literal terms, the call of layer l + 1 on the last output of that position, with the block of its position and the state the layer left one position earlier |
| TwoLayer.LogHolds | converter/k3x_converter/official_two_layer.py:972-1012 | That reading of a log follows from the dataflow equations |
| TwoLayer.FirstUseOrder | converter/k3x_converter/official_two_layer.py:1287-1291 | Of two ids of the union the earlier one is used before the later one ever is |
| TwoLayer.FirstUseFacts | converter/k3x_converter/official_two_layer.py:1287-1291 | The union has each used id exactly once |
| TwoLayer.FirstUseGrows | converter/k3x_converter/official_two_layer.py:978-993 | The union of a longer list extends the union of a shorter one |
| TwoLayerTrace.DeriveTrace | converter/k3x_converter/official_two_layer.py:1219-1306 | The replay succeeds exactly when inputs and initial states are in order and a valid execution is recorded for every call; it reads one record a call and no more.  Each step holds, field by field: position, layer number, hidden, block and consumed digests, and the state, KDA digest, route, contribution digest and output digest of its own record; outputs, selections, initial and final states are those of the records |
| TwoLayerTrace.TraceMeans | converter/k3x_converter/official_two_layer.py:1253-1306 | Every trace that satisfies the specification of the replay has those fields |
| TwoLayerTrace.StepMeans | converter/k3x_converter/official_two_layer.py:1271-1285 | One step of a trace, field by field, against the records before it |
| TwoLayerTrace.LayerMeans | converter/k3x_converter/official_two_layer.py:1286-1306 | The first and last state digest of a layer, and the experts its steps used, each once |
| TwoLayerTrace.ValidMeans | converter/k3x_converter/official_two_layer.py:1253-1270 | What the replay asks of one execution: width, digests of 64 hexadecimal digits, distinct ids below 896, one nonnegative contribution each, and a sum within a millionth of one |
| TwoLayerTrace.OrderMeans | converter/k3x_converter/official_two_layer.py:1225-1243 | What the replay asks of its inputs before the first call, field by field |
| TwoLayerTrace.Extend | converter/k3x_converter/official_two_layer.py:1287-1291 | Appending the ids that are not there yet keeps the first-use union |
| TwoLayerTrace.ReplayTrace | converter/k3x_converter/official_two_layer.py:1014-1033 | The trace of a run's executions is the trace of the dataflow, and its final digests are those of the run's states |
| TwoLayerTrace.Materialize | converter/k3x_converter/official_two_layer.py:963-1033 | Run and replay succeed together exactly when every route can be served, every result is valid and the inputs are in order; the replay consumes every execution, and the experts it selects are, in order, those the run planned, so the object-set check behind it cannot reject them; every call and every step hold field by field |
| Manifest.ManifestIdentity | tools/ablate_official_two_layer_closure.py:143-268 | A decoded manifest is accepted exactly when the official fields, step routes and digests, hidden and state chains, first-use unions, final states, oracle and artifact are right; the identity keeps the known fields only |
| Manifest.LinkedByFields | tools/ablate_official_two_layer_closure.py:216-234 | Four acceptable steps are refused exactly when layer 2 does not take layer 1's output digest, position b not the states position a left, or the selections or final states are not those of the steps |
| Manifest.StepByFields | tools/ablate_official_two_layer_closure.py:179-206 | What a step is accepted for, over its eleven named fields |
| Manifest.IdsByFields | tools/ablate_official_two_layer_closure.py:186-189 | A route is sixteen different integers from 0 to 895 |
| Manifest.ContributionsByFields | tools/ablate_official_two_layer_closure.py:190-193 | Contributions are sixteen positive numbers that add up to one within 1e-5 |
| Manifest.StepsByFields | tools/ablate_official_two_layer_closure.py:176-185 | The four steps are a:1, a:2, b:1 and b:2, in that order |
| Manifest.OracleByFields | tools/ablate_official_two_layer_closure.py:235-241 | The oracle record holds its three constants and a digest |
| Manifest.ArtifactByFields | tools/ablate_official_two_layer_closure.py:242-250 | The artifact record holds its name, two digests and a digest for every tensor |
| Manifest.IdentityByFields | tools/ablate_official_two_layer_closure.py:251-268 | The identity has the official constants and five fields more, and nothing else; selections and final states as they were, each step under its own position and layer |
| Manifest.StepKeepsKnown | tools/ablate_official_two_layer_closure.py:207-215 | Of a step it keeps exactly eleven fields, nine of them as they were |
| Manifest.RecordsKeepKnown | tools/ablate_official_two_layer_closure.py:256-267 | Of the oracle and artifact records it keeps exactly four fields each, as they were |
| Manifest.IdentityIsIdempotent | tools/ablate_official_two_layer_closure.py:248-268 | An identity is an accepted manifest and its own identity, whatever the official constants |
| Manifest.HiddenChain | converter/k3x_converter/official_two_layer.py:1271-1298 | In every trace layer 2 consumes the digest of layer 1's output at the same position |
| Manifest.StateChain | converter/k3x_converter/official_two_layer.py:1286-1304 | In every trace position b consumes the state position a left in its layer, and leaves the final one; the selection is the union of the two routes |
| Manifest.WrittenFields | converter/k3x_converter/official_two_layer.py:1091-1106 | Each of the eleven fields of a written step is the field of the trace that carries its name |
| Manifest.RunIsAccepted | tools/ablate_official_two_layer_closure.py:176-268 | What a two-by-two run writes is accepted exactly when each of its routes has sixteen experts and no zero contribution: chains, unions, final states and the looser sum tolerance always hold, whatever the official constants |
| LoneRun.LoneRunIsRejected | tools/ablate_official_two_layer_closure.py:176-205 | A run that routes to one expert with contribution one passes the replay, and its manifest is rejected with everything else in order |
| LoneRun.LoneIsTwoByTwo | converter/k3x_converter/official_two_layer.py:1248-1306 | That run satisfies every check of the replay |
| Oracle.ParseOracle | converter/k3x_converter/official_two_layer.py:288-346 | A payload is accepted exactly when it is the payload of some oracle, which is the result; for any block sizes |
| Oracle.ReadBody | converter/k3x_converter/official_two_layer.py:313-345 | The moving cursor cuts the words into output and states so that together they are the words; it ends at the last word, so its final check cannot fail |
| Oracle.ReadState | converter/k3x_converter/official_two_layer.py:317-343 | One state takes its three convolution blocks and its recurrent block from the words, in order |
| Oracle.HeaderFields | converter/k3x_converter/official_two_layer.py:300-310 | The header is the expected one exactly when its unpacked fields are |
| Oracle.PayloadLayout | converter/k3x_converter/official_two_layer.py:264-285 | Where everything stands in a payload: magic and four counts at literal offsets, the output words, and for each layer q, k, v and the recurrent words, in that order, each word low byte first |
| Oracle.PayloadIsInjective | converter/k3x_converter/official_two_layer.py:242-285 | Two oracles with one payload are the same oracle |
| Oracle.WriteThenParse | converter/k3x_converter/official_two_layer.py:1035-1038 | Parsing what was written returns the same output and states; a block of the wrong size is refused |
| Routing.CanonicalOrder | converter/k3x_converter/official_moe.py:611-613 | The canonical route is a permutation of the answer, strictly ordered by falling score, then id |
| Routing.UntiedRoute | converter/k3x_converter/official_moe.py:610-613 | When the k-th and the next score differ, every answer of the top-k primitive gives the head of the one ranking of all experts |
| Routing.SmallerRouteIsPrefix | converter/k3x_converter/official_moe.py:610-613 | A smaller untied route is a prefix of a larger untied one |
| Routing.TiedRouteIsAmbiguous | converter/k3x_converter/official_moe.py:610-613 | When the k-th and the next score tie, another valid answer gives another route |
| Routing.RouteIsDetermined | converter/k3x_converter/official_moe.py:610-613 | All valid top-k answers give one route if and only if the k-th and the next score differ |
| Routing.HeadIsTopK | converter/k3x_converter/official_moe.py:610-610 | The head of the ranking is a valid answer, so there always is one |
| Routing.BoundaryOfAnswer | converter/k3x_converter/official_moe.py:610-613 | Whether the boundary of an answer is tied can be read off the scores before the call |
| Routing.TiedPair | converter/k3x_converter/official_moe.py:610-613 | Two experts with one score: either is the route of a single expert |
| RouteWeights.Shortfall | converter/k3x_converter/official_moe.py:614-615 | The contributions miss one by exactly epsilon over the denominator |
| RouteWeights.ContributionOfExpert | converter/k3x_converter/official_moe.py:614-619 | Entry i of a route is the score of its own expert over the common denominator, positive, and a larger score contributes more |
| RouteWeights.RouteIsValid | converter/k3x_converter/official_moe.py:608-619 | The replay accepts a canonical route exactly when its scores do not all but vanish; its contributions are always positive, so the closure tool asks nothing more than sixteen experts |
| RouteWeights.VanishingScores | converter/k3x_converter/official_moe.py:614-615 | Where every score is as small as epsilon, the route of one expert is rejected |
| GraphCache.CounterSnapshot | tools/ablate_cuda_graph_cache.py:34-85 | All twelve counters in closed form for every sequence, capacity and number of calls, with hits defined without a cache by reuse distance; an invalid configuration raises |
| GraphCache.EveryLaunchAccounted | tools/ablate_cuda_graph_cache.py:34-85 | In every mode each launch is a hit, an update or an instantiation, and what was instantiated and not evicted is resident |
| GraphCache.TracePeriodic | tools/ablate_cuda_graph_cache.py:65-67 | The calls start with the sequence and repeat it |
| GraphCache.Launch | tools/ablate_cuda_graph_cache.py:68-83 | One call moves list and counters from one closed form to the next |
| GraphCache.HitIffResident | tools/ablate_cuda_graph_cache.py:69-70 | A call finds its key resident exactly when fewer distinct keys than the capacity were used since its last use |
| GraphCache.LoopIsRecency | tools/ablate_cuda_graph_cache.py:65-79 | Started empty, the loop keeps the most recent part of the distinct keys in order of last use |
| GraphCache.StackProperty | tools/ablate_cuda_graph_cache.py:65-79 | After the same calls the list of a smaller cache is the end of the list of a larger one |
| GraphCache.LargerCacheHitsMore | tools/ablate_cuda_graph_cache.py:65-83 | A larger cache hits at least as often over every window of calls |
| GraphCache.CountersBalance | tools/ablate_cuda_graph_cache.py:65-85 | From any warm list: hits and misses make the launches, and what was inserted and not evicted was added to the residents, which stay distinct, never shrink, and stay within capacity |
| GraphCache.ExpectedGraphCounters | tools/ablate_cuda_graph_cache.py:88-104 | For every mode the warm-up difference is the count of a loop over the measured calls, started from the list the warm-up left |
| GraphCache.DifferenceIsWindow | tools/ablate_cuda_graph_cache.py:100-104 | The difference of two snapshots is the count of the loop over the calls between them, from the warm list |
| GraphCache.WindowHits | tools/ablate_cuda_graph_cache.py:98-104 | The warm loop hits exactly as often as reuse distances in the whole trace say |
| GraphCache.CyclicHit | tools/ablate_cuda_graph_cache.py:65-84 | On a cycle of distinct keys a call hits exactly after a full cycle that fits the cache |
| GraphCache.CyclicCounters | tools/ablate_cuda_graph_cache.py:65-85 | A cycle longer than the capacity never hits; any other misses once a key and never evicts |
| GraphCache.TwoKeysThrash | tools/ablate_cuda_graph_cache.py:65-85 | Two keys in turn never meet again in a cache of one |

## Left out

- HTTP transport, redirects, retries and limits on headers; live discovery of a snapshot; command lines, subprocesses, CSV and JSON evidence.
- JSON text, regular expressions and path-escape checks: names and documents are data, and a shard that does not resolve is one that is absent.
- RangeObject.Run: damage may replace every partial and blob file, but a JSON document is only lost or made unreadable, never forged; a record's object name has no directory part.
- MoeSource.AssembleShard: of the manifest written after the shard only the digests, packed shapes and tensor order are modelled, as a value.
- OfficialSource.MaterializeExpertSlice: stops at the written microshard; the output-conflict checks, the manifest, the conversion and the clean-up of created files are not modelled, and the plan is one that planning produced.
- TwoLayer.Manufacture: preparation of a step is a total function of layer, input and state; planning, fetching and loading one expert are one partial function of layer and id, so the checks on its object and the digest of its payload only decide whether it can be served.
- TwoLayer.Step: experts are handed over in order of first use where the code sorts them by id; `FinishStep` shows that the order is immaterial.
- TwoLayerTrace.DeriveTrace: an executor is represented by the answers it gives, since the replay sees nothing else of it; values are reals, so the finiteness checks are void.
- Manifest.ManifestIdentity: field names are an enumeration with room for unknown names; a manifest given as a path is decoded first.
- Floating point: softmax, norms, activation, the KDA recurrence, MXFP4 decoding, bf16 rounding and tolerance against an oracle.
- `align_up` and `fnv1a64` (converter/k3x_converter/format.py): one expression each.
- `plan_official_two_layer`, the released-configuration checks and the discovery of official names: tables of constants.
- The single-layer and MoE-slice drivers (converter/k3x_converter/official_layer.py, the end of official_moe.py): the same loops over one layer.
- The K3X writer, its resume ledger, and the C++ runtime: only what the reader accepts is modelled.
