/**
 Replicator status and replicated-document records, and their field-for-field
 conversion from the engine's structs (`CBLReplicatorStatus`,
 `CBLReplicatedDocument`, `CBLError`) to the Go structs of replicator.go.
 */
module Status {
  import opened Common

  type UInt8 = x: int | 0 <= x < 0x100

  /** `CBLError`: an 8-bit domain, a C `int` code and an `unsigned` extra word. */
  datatype NativeError = NativeError(domain: UInt8, code: int, internalInfo: UInt32)

  predicate ValidNativeError(e: NativeError) {
    -0x8000_0000 <= e.code < 0x8000_0000
  }

  /** The Go `Error` struct: every field converted with `uint32(...)`. */
  datatype ErrorInfo = ErrorInfo(internalInfo: UInt32, code: UInt32, domain: UInt32)

  /** `ReplicatorActivityLevel` constants, `iota` from 0. */
  const Stopped: UInt8 := 0
  const Offline: UInt8 := 1
  const Connecting: UInt8 := 2
  const Idle: UInt8 := 3
  const Busy: UInt8 := 4

  /** `DocumentFlags` constants, `1 << iota`. */
  const DocumentFlagsDeleted: nat := 1
  const DocumentFlagsAccessRemoved: nat := 2

  datatype NativeStatus = NativeStatus(
    activity: UInt8, fractionComplete: bv32, documentCount: UInt64, error: NativeError)

  datatype Progress = Progress(fractionComplete: bv32, documentCount: UInt64)

  datatype ReplicatorStatus = ReplicatorStatus(activity: UInt8, progress: Progress, err: ErrorInfo)

  datatype NativeReplicatedDoc = NativeReplicatedDoc(id: string, flags: UInt32, error: NativeError)

  datatype ReplicatedDocument = ReplicatedDocument(id: string, flags: UInt32, err: ErrorInfo)

  /** `Error{uint32(e.internal_info), uint32(e.code), uint32(e.domain)}`. */
  function ConvertError(e: NativeError): (r: ErrorInfo)
    ensures r.internalInfo == e.internalInfo && r.domain == e.domain
    ensures e.code >= 0 ==> r.code == ToUint32(e.code)
  {
    ErrorInfo(ToUint32(e.internalInfo), ToUint32(e.code), ToUint32(e.domain))
  }

  /** The conversion loses nothing: every field of a well-formed engine error
      can be recovered from the Go struct, a negative code included. */
  lemma ConvertErrorLossless(e: NativeError)
    requires ValidNativeError(e)
    ensures NativeError(ConvertError(e).domain, FromUint32(ConvertError(e).code),
                        ConvertError(e).internalInfo) == e
  {
  }

  /** The status copy shared by `replicatorChangeBridge` and `Replicator.Status`. */
  function ConvertStatus(s: NativeStatus): (r: ReplicatorStatus)
    ensures r.activity == s.activity
    ensures r.progress.fractionComplete == s.fractionComplete
    ensures r.progress.documentCount == s.documentCount
    ensures r.err == ConvertError(s.error)
  {
    ReplicatorStatus(s.activity, Progress(s.fractionComplete, s.documentCount), ConvertError(s.error))
  }

  /** The engine status a Go status was copied from, for a well-formed error. */
  function StatusSource(r: ReplicatorStatus): NativeStatus
    requires r.err.domain < 0x100
  {
    NativeStatus(r.activity, r.progress.fractionComplete, r.progress.documentCount,
      NativeError(r.err.domain, FromUint32(r.err.code), r.err.internalInfo))
  }

  /** The status copy is field-for-field: the engine status can be rebuilt from it. */
  lemma ConvertStatusLossless(s: NativeStatus)
    requires ValidNativeError(s.error)
    ensures ConvertStatus(s).err.domain < 0x100
    ensures StatusSource(ConvertStatus(s)) == s
  {
  }

  /** The replicated-document copy of `replicatedDocumentBridge`: the ID
      through `C.GoString`, the flags unchanged. */
  function ConvertReplicatedDoc(d: NativeReplicatedDoc): (r: ReplicatedDocument)
    ensures r.id == CString(d.id)
    ensures r.flags == d.flags
    ensures r.err == ConvertError(d.error)
  {
    ReplicatedDocument(CString(d.id), d.flags, ConvertError(d.error))
  }

  /** The two document flags are distinct single bits. */
  lemma DocumentFlagBits()
    ensures DocumentFlagsDeleted == 1 && DocumentFlagsAccessRemoved == 2
    ensures (DocumentFlagsDeleted as bv32) & (DocumentFlagsAccessRemoved as bv32) == 0
  {
  }
}
