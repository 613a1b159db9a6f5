// Shared vocabulary of the converter model: bytes, digests and the two ways a
// call can end without a value.

module Wrappers {

  /** One octet of a file, a record or a response body. */
  type byte = x: int | 0 <= x < 256

  type Bytes = seq<byte>

  datatype Option<+T> = None | Some(value: T)

  /** Every stable error code the modelled functions can raise. */
  datatype K3XError =
    | InvalidAlignment
    | InvalidSuperblockIdentity
    | InvalidSuperblockDigest
    | TruncatedSuperblock
    | BadMagic
    | UnsupportedVersion
    | InvalidSuperblockLayout
    | SuperblockCrcMismatch
    | NonzeroReservedBytes
    | UnsupportedRequiredFeature
    | InvalidTensorRank
    | InvalidTensorRecord
    | UnsupportedTensorRole
    | UnsupportedTensorFlags
    | NonzeroUnusedDimension
    | InvalidTensorEnum
    | InvalidLayerRecord
    | InvalidLayerEnum
    | UnsupportedLayerFlags
    | InvalidExpertRecord
    | UnsupportedExpertFlags
    | InvalidDirectory
    | TruncatedDirectory
    | InvalidDirectoryHeader
    | InvalidDirectoryLength
    | InvalidEmptyExtent
    | UnalignedExtent
    | TruncatedFile
    | OverlappingExtent
    | StructRange              // struct.error: a value does not fit its field
    | UnfinalizedFile
    | InvalidModelConfigLength
    | InvalidTensorFeature
    | DataCrcMismatch
    | AuxiliaryCrcMismatch
    | DirectoryDigestMismatch
    | RootDigestMismatch
    | InvalidSourceHeader
    | InvalidSourceExtent
    | OverlappingSourceExtent
    | TruncatedSourceShard
    | InvalidChunkSize
    | InvalidReadSize          // ValueError: a read length below -1
    | InvalidSourceManifest
    | SourceShardPathEscape
    | SourceTensorShardMismatch
    | InvalidOfficialRangeObject
    | InvalidOfficialRange
    | OfficialBodyLimit
    | OfficialHttpStatus
    | OfficialContentRangeMismatch
    | OfficialRangeLengthMismatch
    | InvalidOfficialExpert
    | InvalidOfficialFile
    | InvalidOfficialMoeObjectSet
    | InvalidOfficialMoeExpertObject
    | InvalidOfficialMoeSource
    | TruncatedOfficialMoeObject
    | InvalidTwoLayerSource
    | InvalidTwoLayerTrace
    | ExecutorExhausted        // StopIteration: the executor has no further answer
    | InvalidTwoLayerOracle
    | ManifestDiverged
    | InvalidGraphConfiguration

  datatype Result<+T> = Ok(value: T) | Err(error: K3XError) {
    predicate IsFailure() {
      Err?
    }

    function PropagateFailure<U>(): Result<U>
      requires Err?
    {
      Err(error)
    }

    function Extract(): T
      requires Ok?
    {
      value
    }
  }

  function Min(a: int, b: int): int {
    if a <= b then a else b
  }

  function Max(a: int, b: int): int {
    if a <= b then b else a
  }

  /** No element occurs twice. */
  predicate Distinct<T(==)>(s: seq<T>) {
    forall i, j :: 0 <= i < j < |s| ==> s[i] != s[j]
  }

  lemma {:induction false} SubsetSize<T>(a: set<T>, b: set<T>)
    requires a <= b
    ensures |a| <= |b|
  {
    assert b == a + (b - a);
  }

  lemma {:induction false} SliceOfSlice<T>(s: seq<T>, a: nat, b: nat, c: nat, d: nat)
    requires a <= b <= |s| && c <= d <= b - a
    ensures s[a..b][c..d] == s[a + c..a + d]
  {
    forall i | 0 <= i < d - c ensures s[a..b][c..d][i] == s[a + c..a + d][i] {
      assert s[a..b][c + i] == s[a + c + i];
    }
  }
}
