/**
 The blob operations of blob.go. The engine is abstracted to what it hands
 back: an error code (with its domain), an object handle, the bytes it
 produced, and the entries of a blob's metadata dict.

 The `code` parameters are the `code` field of the `CBLError` the binding
 allocates with `C.malloc` and never clears. The engine writes it only on
 failure, so after a success it holds whatever that memory held, and a
 success can read as a failure; the model takes `code` as whatever the
 field holds after the call.
 */
module Blobs {
  import opened Common
  import opened Values
  import opened ValueBridge

  // ---------------------------------------------------------------------------
  // Recognising blob references

  /** `isBlob`: a dict is a blob reference exactly when its first `@type`
      entry holds the string "blob". */
  lemma IsBlobMarked(es: seq<Entry>)
    ensures IsBlob(es) <==>
      exists i :: 0 <= i < |es| && es[i].key == TypeProperty &&
        es[i].value.String? && es[i].value.chars == BlobType &&
        forall j :: 0 <= j < i ==> es[j].key != TypeProperty
  {
  }

  // ---------------------------------------------------------------------------
  // Creating blobs

  /** What a blob constructor hands the engine, and the Go result it returns. */
  datatype Creation = Creation(contentType: string, contents: seq<byte>, blob: Result<Blob>)

  /** The Go result of both constructors: the metadata dict of the new blob,
      converted by `getKeyValuePropMap`. That conversion never reports an
      error, so `ErrProblemCreatingBlobWithData` is never returned. */
  function CreatedBlob(metadata: seq<Entry>): (r: Result<Blob>)
    requires AllReadable(metadata)
    ensures r.Success?
  {
    Success(Blob(PropMap(metadata)))
  }

  /** `NewBlobWithData`: the content type goes through `C.CString`, the
      contents are copied byte for byte. */
  function NewBlobWithData(contentType: string, contents: seq<byte>, metadata: seq<Entry>): (r: Creation)
    requires AllReadable(metadata)
    ensures r.blob.Success?
    ensures r.contentType <= contentType && NulFree(r.contentType)
    ensures |r.contents| == |contents| && forall i :: 0 <= i < |contents| ==> r.contents[i] == contents[i]
  {
    Creation(CString(contentType), contents, CreatedBlob(metadata))
  }

  /** `CreateBlobWithStream`: the data was written to the stream beforehand,
      so only the content type is handed over. */
  function CreateBlobWithStream(contentType: string, metadata: seq<Entry>): (r: Creation)
    requires AllReadable(metadata)
    ensures r.blob.Success?
    ensures r.contentType <= contentType && NulFree(r.contentType)
    ensures r.contents == []
  {
    Creation(CString(contentType), [], CreatedBlob(metadata))
  }

  /** A new blob is the very blob the reader produces for its metadata dict
      once that dict is stored in a document: creating and reading agree. */
  lemma CreatedBlobReadsBack(contentType: string, contents: seq<byte>, metadata: seq<Entry>)
    requires AllReadable(metadata) && IsBlob(metadata)
    ensures Readable(Dict(metadata))
    ensures Read(Dict(metadata)) == Success(BlobRef(NewBlobWithData(contentType, contents, metadata).blob.value))
    ensures Read(Dict(metadata)) == Success(BlobRef(CreateBlobWithStream(contentType, metadata).blob.value))
  {
    BlobPrecedence(metadata);
  }

  /** A metadata key shows up in the blob's properties exactly when some
      entry with that key converts. */
  lemma CreatedBlobProps(metadata: seq<Entry>, k: string)
    requires AllReadable(metadata)
    ensures k in CreatedBlob(metadata).value.props <==>
      exists i :: 0 <= i < |metadata| && metadata[i].key == k && Read(metadata[i].value).Success?
  {
    PropMapKeys(metadata, k);
  }

  // ---------------------------------------------------------------------------
  // Opening streams

  /** `NewReadStream`: the stream, or nil when the engine reports an error. */
  function NewReadStream(code: int, stream: nat): (r: Option<nat>)
    ensures r.Some? <==> code == 0
    ensures r.Some? ==> r.value == stream
  {
    if code == 0 then Some(stream) else None
  }

  /** `NewBlobWriter`: the writer, or an error carrying the engine's domain and code. */
  function NewBlobWriter(code: int, domain: int, writer: nat): (r: Result<nat>)
    ensures r.Success? <==> code == 0
    ensures r.Success? ==> r.value == writer
    ensures r.Failure? ==> r.error == EngineError(domain, code)
  {
    if code == 0 then Success(writer) else Failure(EngineError(domain, code))
  }

  // ---------------------------------------------------------------------------
  // Reading and writing content

  /** Go's `copy(dst, src)`: the first `min(len(dst), len(src))` bytes of
      `dst` are overwritten from `src`, the rest are left as they were. */
  method Copy(dst: seq<byte>, src: seq<byte>) returns (r: seq<byte>)
    ensures |r| == |dst|
    ensures forall i :: 0 <= i < |dst| && i < |src| ==> r[i] == src[i]
    ensures forall i :: |src| <= i < |dst| ==> r[i] == dst[i]
  {
    r := dst;
    var n := if |dst| < |src| then |dst| else |src|;
    var i := 0;
    while i < n
      invariant 0 <= i <= n
      invariant |r| == |dst|
      invariant forall j :: 0 <= j < i ==> r[j] == src[j]
      invariant forall j :: i <= j < |dst| ==> r[j] == dst[j]
    {
      r := r[i := src[i]];
      i := i + 1;
    }
  }

  /** What `Blob.Read` returns and what it leaves in the caller's buffer. */
  datatype ReadResult = ReadResult(count: int, err: Option<CblError>, dst: seq<byte>)

  /** `Blob.Read`: the engine reads up to `len(dst)` bytes into a C copy of
      the buffer; on success the first `count` bytes of that copy are copied
      back, so the buffer's tail keeps its old bytes. On an engine error the
      result is -1 with an error and the buffer is untouched. The engine is
      given as its error code and domain, the count it returns, and the bytes
      it wrote; on success it writes `count` bytes, no more than asked for. */
  method ReadContent(dst: seq<byte>, code: int, domain: int, count: int, written: seq<byte>)
    returns (r: ReadResult)
    requires code == 0 ==> 0 <= count <= |dst| && |written| == count
    ensures code == 0 ==> r.count == count && r.err.None?
    ensures code != 0 ==> r == ReadResult(-1, Some(EngineError(domain, code)), dst)
    ensures |r.dst| == |dst|
    ensures code == 0 ==> r.dst[..count] == written && r.dst[count..] == dst[count..]
  {
    if code == 0 {
      var readData := written;
      var after := Copy(dst, readData);
      assert after[..count] == written;
      assert after[count..] == dst[count..];
      return ReadResult(count, None, after);
    }
    r := ReadResult(-1, Some(EngineError(domain, code)), dst);
  }

  /** `Blob.Write`: the engine's success flag is returned as it is. On
      success the bytes of the C copy handed to the engine are copied back
      into `data`; the engine only reads that copy, so `data` is unchanged. */
  method WriteContent(data: seq<byte>, accepted: bool, code: int) returns (ok: bool, after: seq<byte>)
    ensures ok == accepted
    ensures after == data
  {
    var cData := data;
    after := data;
    if accepted && code == 0 {
      after := Copy(data, cData);
    }
    ok := accepted;
  }
}
