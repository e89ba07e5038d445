# couchbase-lite-cgo: value bridge and callback dispatch, in Dafny

couchbase-lite-cgo is a Go binding over the Couchbase Lite C library. Most of
it hands its arguments straight to the C library, which this project calls
the engine. One layer has logic of its own, and this project models it:

- **The value bridge.**
  - `getFLValueToGoValue` reads engine (Fleece) values into Go values.
  - `getKeyValuePropMap` builds property maps.
  - `storeGoValueInSlot` writes Go values into engine slots.
- **Callback dispatch.**
  - Registering listeners stores the Go callback in a `context.Context`, or in a package registry keyed by the context's `"UUID"` string.
  - The exported trampolines of bridge.go find that callback again under a fixed key and call it.
- **The small translations around them.**
  - `NewReplicator`'s configuration encoding.
  - Status and replicated-document copies.
  - Database flags, and the encryption-key copy.
  - The mapping of engine error codes to Go results.
  - Query parameters and result columns.
  - Index names and index specs.
  - Blob creation, reading and writing.

The engine is abstracted to what it hands back. That is:
- an error code, with its domain;
- an object handle;
- the bytes or entries it produced.

Engine values are the datatype `Values.FLValue`. Go values are `Values.GoValue`. The writer's target is `Values.Slot`.

Go's own semantics are written out where the binding depends on them:
- `C.GoString` and `C.CString` stop at the first NUL (`Common.CString`).
- `C.GoStringN` does not.
- `uint32(x)` is reduction modulo 2^32.
- `^` is exclusive or.
- A single-result type assertion panics on mismatch.
- Calling a method on a nil interface panics.
- `context.WithValue` panics on a nil parent and on a key Go cannot compare.

A Go panic is the `Panicked` case of `Common.Outcome`.

A context is modelled as the map its chain of `WithValue` layers denotes. The pointer the engine carries back to a trampoline is `Contexts.Carried`. It is either the address of a Go context, or the Fleece dict that the replicator registrations build from one.

Modules follow the source files:
- `Common`, `Values` and `ValueBridge` cover document.go and bridge.go.
- `Contexts` and `Bridge` cover bridge.go and the keys of database.go.
- `Document`, `Database`, `Query`, `Replicator`, `Status` and `Blobs` cover the files of the same names.

A deep iteration keys each value by `FLDeepIterator_GetKey`: the last segment of its path, and the empty string for an array item (`Values.DeepEntries`).

Where the code has a defect, the model carries both the code as written and the evidently intended behaviour, and the rest of the model uses the intended one; "## Findings" lists them. Nested containers are one: the writer attaches a nested slice or map through `FLMutableArray_GetSource` / `FLMutableDict_GetSource` of a container it has just created, which has no source, so the slot receives NULL. `ValueBridge.WriteAsWritten` is that writer; `ValueBridge.Write`, which attaches the container it built, is the intended one. The number reader is the exception: the read-back lemmas describe what the program does, so they use the reader as written (`ValueBridge.ReadNumber`), which reads every engine integer as an `int64`; `ValueBridge.ReadNumberCorrected` is the intended reader.

## Model

| member | source | states |
|---|---|---|
| Common.CString | document.go:377 | what crosses `C.GoString`/`C.CString` is a NUL-free prefix of the string, cut exactly at its first NUL |
| Common.CStringIdentity | document.go:377 | a string crosses the C boundary unchanged if and only if it has no NUL |
| Common.CStringStopsAtNul | document.go:377 | `C.GoString` given a string's start stops within it, as a cut at its first NUL, exactly when it has a NUL or the memory after it starts with one |
| Common.ToUint32 | bridge.go:97 | `uint32(x)` is the identity on 0..2^32-1 and adds 2^32 to a negative 32-bit value |
| Common.FromUint32 | bridge.go:97 | every `uint32` is the conversion of exactly one signed 32-bit value, so a C `int` code survives the conversion |
| Values.DeepEntries | document.go:405-423 | a deep iteration visits only strict descendants of the dict (each smaller than it), all of them readable when the dict is |
| Values.Lookup | blob.go:55-62 | a key lookup finds a value exactly when some entry has the key, and then the value of the first such entry |
| ValueBridge.ReadNumber | document.go:364-374 | numbers are classified in order: integer to `int64`, else unsigned to `uint64`, else double to `float64`, else `float32` |
| ValueBridge.Read | document.go:351-431 | only `Undefined` and unknown tags fail, with `ErrInvalidCBLType`; null reads as nil; a string is read from its start up to the first NUL, running past its end into the memory after it when no NUL comes first; an empty array is nil and a non-empty one raw bytes as many as its items, never a list; a dict is a Blob exactly when blob-marked, else a map |
| ValueBridge.StringRead | document.go:375-378 | a string reads as itself cut at its first NUL when it has one or is followed by a NUL; a NUL-free string always reads as at least itself |
| ValueBridge.ReadPair | document.go:351-431 | the reader returns a nil error exactly when the conversion succeeds, with the converted value; otherwise its error, `ErrInvalidCBLType` |
| ValueBridge.GetBlob | blob.go:71-78 | `getBlob` on a blob-marked dict always succeeds, so `ErrProblemGettingBlobWithData` is unreachable |
| ValueBridge.CollectKeys | document.go:316-328 | a key is in the property map exactly when some entry with that key converts without error |
| ValueBridge.CollectValue | document.go:323-325 | the value stored under a key is that of the last entry with the key whose conversion succeeds |
| ValueBridge.PropMapKeys | document.go:308-331 | `getKeyValuePropMap` holds exactly the keys of the entries that convert without error |
| ValueBridge.PropMapValue | document.go:316-325 | under each key `getKeyValuePropMap` holds the value of the last entry with that key that converts |
| ValueBridge.BlobPrecedence | document.go:397-404 | a blob-marked dict always reads as the Blob whose metadata is its shallow property map, never as a map |
| ValueBridge.DictFlattens | document.go:405-425 | any other dict reads as a map whose keys are exactly those of the deep iteration's entries that convert |
| ValueBridge.DictFlattensValue | document.go:415-420 | under each key that map holds the value of the last deep entry with that key that converts |
| ValueBridge.Write | document.go:433-537 | the intended writer: every signed kind is stored with `SetInt`, every unsigned kind with `SetUInt`, `float32`/`float64` with `SetFloat`/`SetDouble`, strings cut at NUL; a slice or map is stored as the container built, keeping its length and key set |
| ValueBridge.WriteOutcomes | document.go:433-537 | the writer panics exactly on nil, non-`[]interface{}` slices, values of a defined scalar or slice type (each case asserts the unnamed type), and containers holding any of them; it refuses exactly the other unencodable shapes; it stores everything else |
| ValueBridge.NestedErrorSwallowed | document.go:450-453 | an unsupported element inside a slice leaves its slot unset while the slice itself is still written |
| ValueBridge.WriteThenDecode | document.go:436-529 | with the intended writer and the reader as written, writing and reading back turns every integer into an `int64` (an unsigned one of 2^63 or more into a negative one), cuts strings at NUL and replaces refused values by nil, and loses nothing else |
| ValueBridge.CanonicalRoundTrip | document.go:433-537 | with the intended writer, an `int64`, float, boolean or NUL-free string value, or a container of such, is stored and decodes back to itself |
| ValueBridge.WriteAsWritten | document.go:443-529 | as written, the writer panics and refuses exactly as the intended one does, but a stored slice or map slot receives NULL |
| ValueBridge.ContainersLost | document.go:454-455 | as written, a canonical value survives a write and read-back exactly when it is not a slice or map |
| ValueBridge.ContainerLostExample | document.go:527-528 | the slice `[int64(1)]` reads back from the intended writer and is lost by the writer as written |
| ValueBridge.ReadScalarRoundTrip | document.go:360-378 | every scalar the reader produces from a number with Fleece's flags, a boolean or a string survives a write and read-back unchanged |
| ValueBridge.NumberSlotsReadBack | document.go:364-368 | an integer slot set with `SetInt` or `SetUInt` reads back as the `int64` the decoding of slots gives it |
| ValueBridge.UnsignedReadBackAsWritten | document.go:365-368 | as written, every engine integer reads back as an `int64`, so a `uint64` keeps its value exactly when it is below 2^63, and 2^63 reads back as -2^63 |
| ValueBridge.ReadNumberCorrected | document.go:364-374 | the intended reader tests the unsigned flag first and otherwise reads as written |
| ValueBridge.IntegerReadBackCorrected | document.go:364-368 | with the intended reader, every integer slot reads back with its own value |
| ValueBridge.ReadThenWritePanics | document.go:383-396 | reading a null or a non-empty array and writing the result back panics, since nil and `[]byte` are refused by the writer |
| Contexts.KeysDistinct | database.go:50-53 | the keys "UUID", "CALLBACK", "PUSHCALLBACK" and "PULLCALLBACK" are pairwise distinct |
| Contexts.Value | bridge.go:44 | `ctx.Value` panics exactly on a nil context and otherwise finds the value stored under the key, if any |
| Contexts.WithValue | database.go:394 | `context.WithValue` panics on a nil parent or a function key; otherwise the key holds the value and every other key is unchanged |
| Contexts.WithValueThenValue | database.go:394-395 | a value stored with `WithValue` under a string key is what `Value` finds under it afterwards |
| Contexts.Uuid | document.go:695-697 | the registration guard yields a key exactly when the context holds a string under "UUID", and that string |
| Contexts.AssertCallback | bridge.go:44 | the type assertion returns the stored function exactly when it has the asserted listener type, and panics otherwise |
| Contexts.AssertString | replicator.go:363 | `v.(string)` returns the string exactly when the value is one, and panics otherwise |
| Contexts.StringAt | replicator.go:363 | a filter's registry key is found exactly when the context is non-nil and holds a string under the key |
| Contexts.Delete | replicator.go:436-442 | `delete` removes exactly the given key, and is a no-op for an absent key |
| Status.ConvertError | bridge.go:97 | the `Error` struct copies domain and internal info, and the code through `uint32` |
| Status.ConvertErrorLossless | bridge.go:111 | a well-formed engine error can be rebuilt from its Go copy, a negative code included |
| Status.ConvertStatus | bridge.go:97-100 | activity, fraction, document count and error are copied field for field |
| Status.ConvertStatusLossless | bridge.go:93-104 | the engine status can be rebuilt from the status a change listener receives |
| Status.ConvertReplicatedDoc | bridge.go:111-114 | a replicated document keeps its flags and error, and its ID is cut at NUL |
| Status.DocumentFlagBits | replicator.go:556-559 | `DocumentFlagsDeleted` is 1, `DocumentFlagsAccessRemoved` is 2, and they share no bit |
| Bridge.Deliver | bridge.go:44-45 | a trampoline invokes the callback stored under its key exactly when the carried pointer is a context holding a function of the expected type; a nil context or a wrong type panics; a Fleece dict is not a context |
| Bridge.CopyDocIds | bridge.go:31-37 | the ID list has exactly `numDocs` entries, every one of them the first ID |
| Bridge.CopyDocIdsCorrected | bridge.go:31-37 | with the pointer advanced, the list holds each ID once, in order |
| Bridge.RepeatedFirstIdLosesIds | bridge.go:35-37 | for IDs "a", "b" the listener receives "a", "a" instead of "a", "b" |
| Bridge.RepeatedFirstIdAgrees | bridge.go:35-37 | the list as written is right exactly when every ID reads like the first |
| Bridge.DatabaseListenerBridge | bridge.go:29-46 | the database trampoline delivers the repeated-first-ID list, `numDocs` long, to the callback under "CALLBACK" |
| Bridge.DatabaseListenerBridgeCorrected | bridge.go:29-46 | the corrected trampoline delivers every ID once |
| Bridge.DocumentListenerBridge | bridge.go:48-57 | the document trampoline invokes only a document listener, with the ID cut at NUL |
| Bridge.NotificationBridge | bridge.go:59-66 | the notification trampoline invokes only a notifications-ready callback, handing it whatever the missing second argument holds as the database |
| Bridge.QueryListenerBridge | bridge.go:68-75 | the query trampoline invokes only a query listener |
| Bridge.FilterBridge | bridge.go:77-91 | the filter trampolines call the function stored under "PUSHCALLBACK" or "PULLCALLBACK" and hand no verdict back, so the engine reads an indeterminate one |
| Bridge.ReplicatorChangeBridge | bridge.go:93-104 | the replicator trampoline invokes only a replicator listener, with the converted status |
| Bridge.ReplicatedDocumentBridge | bridge.go:106-118 | the replicated-document trampoline converts the first record only and passes the count on; a NULL record array panics |
| Bridge.OnlyFirstReplicatedDoc | bridge.go:111-117 | records after the first never influence what the listener receives |
| Document.DocumentKeys | document.go:333-349 | the key list has one entry per dict entry, in iteration order, keys kept whole |
| Document.Sync | document.go:569-595 | a read-only document is not synced; otherwise the new dict has the map's keys with top-level blobs set as blobs, unless the writer panics on some property |
| Document.SyncRoundTrip | document.go:569-595 | syncing blobs and canonical values installs a dict that decodes back to the same property map |
| Document.Save | document.go:99-110 | a read-only document is refused with `ErrDocumentIsNotReadOnly`; otherwise success exactly when the engine's code is 0, else `ErrProblemSavingDocument` |
| Document.AddDocumentChangeListener | document.go:694-707 | registration succeeds exactly when the context holds a string under "UUID", storing listener and token under it; otherwise it returns an error and stores nothing |
| Document.DocumentListenerDispatch | document.go:698-701 | the engine is given the caller's context unchanged, so the trampoline reaches a listener only if the caller already stored one under "CALLBACK" |
| Database.FlagsAsWrittenOverlap | database.go:33-37 | as written, Create = 2, ReadOnly = 3 (containing Create's bit) and NoUpgrade = 0 (no bit at all) |
| Database.FlagsCorrectedDisjoint | database.go:33-37 | the corrected flags are three nonzero, pairwise disjoint bits |
| Database.CopyKey | database.go:178-181 | the key is copied index for index into 32 zeroed bytes; a longer key panics |
| Database.NativeConfigOf | database.go:183-192 | the native configuration carries the directory cut at NUL, the flags, the algorithm and the copied key |
| Database.Open | database.go:173-210 | a nil configuration or an over-long key panics; otherwise success exactly when the engine's code is 0, else an error with its domain and code |
| Database.CopyDatabase | database.go:98-126 | a nil configuration or an over-long key panics; otherwise the engine's result is returned |
| Database.DatabaseConfig | database.go:340-356 | directory, flags and algorithm are read back, the key bytes always empty |
| Database.ConfigReadBack | database.go:337-356 | reading the configuration back gives the one opened with exactly when its directory has no NUL and it had no key |
| Database.BoolUnlessError | database.go:227-276 | `Delete`/`Compact`/`BeginBatch`/`EndBatch` return true exactly when the code is 0 and the engine says true |
| Database.PurgeResult | database.go:296-304 | `PurgeExpiredDocuments` returns the engine's count, or -1 on error |
| Database.AddDatabaseChangeListener | database.go:393-398 | the listener is stored in the context under "CALLBACK", which is what the engine is given |
| Database.DatabaseListenerDispatch | database.go:393-398 | every later database change reaches exactly the registered listener |
| Database.BufferNotificationsPanics | database.go:440-445 | with the function value used as the context key, buffering notifications always panics |
| Database.BufferNotificationsCorrected | database.go:440-445 | with the key "CALLBACK", the callback is stored and the engine is given the extended context |
| Database.BufferNotificationsCorrectedDispatch | database.go:440-445 | with the corrected key, the notification trampoline reaches the callback, with whatever database value its missing argument holds |
| Query.SetParameters | query.go:109-122 | the intended binding: every parameter is written under its own key into a fresh dict, an unsupported value leaves its slot unset and nothing is reported; the writer's panic propagates |
| Query.SetThenGetParameters | query.go:124-133 | once the engine holds the intended bindings, a boolean, NUL-free string or `int64` parameter comes back from `GetParameters` unchanged |
| Query.SetParametersAsWritten | query.go:109-122 | as written, the engine is handed NULL in place of the bindings whenever the writer does not panic |
| Query.ParameterLost | query.go:119-120 | the parameter "x" is bound and read back with the intended binding, while as written the engine gets nothing and gives no "x" back |
| Query.ColumnValueAsWritten | query.go:228-231 | with the inverted error test, only the value the reader returns with an error is passed on, and that is nil, so a column's value is always discarded |
| Query.ColumnValue | query.go:228-231 | the corrected result is the converted value, and nil exactly for missing, null, undefined, unknown or empty-array columns |
| Query.ValueAtIndex | query.go:226-232 | `ValueAtIndex` as written always returns nil |
| Query.ValueAtIndexCorrected | query.go:226-232 | the corrected `ValueAtIndex` returns the converted column at the index truncated to C `unsigned`, nil past the end |
| Query.ValueForKey | query.go:241-249 | `ValueForKey` as written always returns nil |
| Query.ValueForKeyCorrected | query.go:241-249 | the corrected `ValueForKey` returns the converted column found under the key cut at NUL, nil when absent |
| Query.ColumnValueDiscarded | query.go:228-230 | a string column reads as that string once corrected and as nil as written, by index and by name |
| Query.IndexNames | query.go:438-458 | one name per array item, in iteration order, each read in full |
| Query.ToNativeIndexSpec | query.go:398-403 | type and ignore-accents flag are kept, both strings cut at NUL |
| Query.IndexSpecPreserved | query.go:398-403 | the spec is preserved exactly when its strings have no NUL |
| Query.AddChangeListener | query.go:294-299 | the listener is stored in the context under "CALLBACK", which is what the engine is given |
| Query.QueryListenerDispatch | query.go:294-299 | every later result change reaches exactly the registered listener |
| Blobs.IsBlobMarked | blob.go:55-62 | a dict is a blob reference exactly when its first `@type` entry is a string whose bytes are "blob" |
| Blobs.CreatedBlob | blob.go:197-201 | the constructors' metadata conversion never fails |
| Blobs.NewBlobWithData | blob.go:189-202 | `NewBlobWithData` always succeeds; the engine is given the content type cut at NUL and the contents byte for byte |
| Blobs.CreateBlobWithStream | blob.go:273-282 | `CreateBlobWithStream` always succeeds; the engine is given the content type cut at NUL |
| Blobs.CreatedBlobReadsBack | blob.go:189-202 | a created blob is the very blob the reader later produces for its metadata dict |
| Blobs.CreatedBlobProps | blob.go:197 | a metadata key is among the blob's properties exactly when some entry with the key converts |
| Blobs.NewReadStream | blob.go:136-145 | the stream is returned exactly when the engine's code is 0, nil otherwise |
| Blobs.NewBlobWriter | blob.go:219-229 | the writer is returned exactly when the engine's code is 0, otherwise an error with domain and code |
| Blobs.Copy | blob.go:165 | Go's `copy` overwrites the common prefix and leaves the rest of the destination alone |
| Blobs.ReadContent | blob.go:157-172 | on success the count is returned and only the first `count` bytes of the buffer are overwritten; on error -1, an error, and the buffer untouched |
| Blobs.WriteContent | blob.go:248-260 | `Write` returns the engine's flag unchanged and leaves `data` unchanged |
| Replicator.NativeProxy | replicator.go:286-295 | the proxy type and port are copied and its strings cut at NUL |
| Replicator.NativeProxyPreserved | replicator.go:286-295 | the proxy reaches the engine unchanged exactly when its strings have no NUL |
| Replicator.CertificateSlice | replicator.go:300-316 | a non-empty certificate becomes a slice of the same length, an empty one the null slice |
| Replicator.CertificateRoundTrip | replicator.go:300-316 | no certificate byte is lost or changed |
| Replicator.EncodeStrings | replicator.go:335-357 | a string list becomes as many string slots, in order, each cut at NUL |
| Replicator.EncodeStringsRoundTrip | replicator.go:335-357 | NUL-free strings read back from their slots unchanged and in order |
| Replicator.NewReplicator | replicator.go:274-404 | a nil database, endpoint or authenticator panics; the configuration is built exactly when the headers can be written and each configured filter and resolver finds its string key; then fields are copied, channels left unset when empty, callbacks installed exactly for non-nil filters, the context dict built exactly for a non-nil context with keys, only filter registries changed, and the engine's code decides the result |
| Replicator.FiltersRegistered | replicator.go:360-393 | each configured filter or resolver is registered under the string its context key holds |
| Replicator.HeadersRoundTrip | replicator.go:319-332 | canonical headers reach the engine as a dict that decodes back to the same map |
| Replicator.StringListsRoundTrip | replicator.go:335-357 | NUL-free channels and document IDs reach the engine in their original order and read back unchanged |
| Replicator.FiltersNeverReached | replicator.go:379-384 | the engine hands filters a Fleece dict, which no trampoline can read as a context |
| Replicator.RemovePushFilterListener | replicator.go:436-438 | only the given key leaves the push-filter registry; everything else is unchanged |
| Replicator.RemovePullFilterListener | replicator.go:440-442 | only the given key leaves the pull-filter registry; everything else is unchanged |
| Replicator.RegisterThenRemovePush | replicator.go:360-365 | removing a push filter just registered restores the registry without that key; removing an absent key changes nothing |
| Replicator.AddChangeListener | replicator.go:533-547 | success exactly with a "UUID" string, registering under it and returning a token with that key, the engine's token and "ReplicatorChangeListener"; otherwise an error and no change |
| Replicator.AddDocumentListener | replicator.go:597-611 | the same for replicated-document listeners, with kind "ReplicatedDocumentListener" |
| Replicator.ReplicatorListenersNeverReached | replicator.go:537-542 | the token's key finds the listener in its registry, but the trampolines are handed a Fleece dict and never invoke it |
| Replicator.CurrentStatus | replicator.go:505-512 | `Status()` copies activity and progress, and the engine status can be rebuilt from it |

## Left out

- C memory management is not modelled. This covers `malloc`/`free`, the release calls, and the bridge.go writer's release of each nested container. Ownership has no counterpart at this level.
- Engine internals are parameters of the model: Fleece encoding; persistence, query execution, replication networking, TLS and proxies; the metadata the engine gives a new blob.
- Engine behaviours fixed by assumption rather than taken as parameters:
  - a deep iteration visits descendants in pre-order (`Values.DeepEntries`);
  - `CBL_IsBlob` is a first-entry `@type` lookup, compared by the string's bytes (`Values.IsBlob`);
  - `CBLBlob_Properties(CBLBlob_Get(d))` is the dict `d` itself (`ValueBridge.GetBlob`);
  - Fleece flags every integer as an integer, and as unsigned only at 2^63 or more (`Values.FleeceFlags`, `ValueBridge.StoredNumber`); a slot set with `SetInt` or `SetUInt` holds such a number, which is how `ValueBridge.SlotToGo` decodes it;
  - a string parameter the engine holds is followed by a NUL in its memory (`Query.Holds`). Other engine strings carry the memory after them as `String.tail`.
- Concurrency is not modelled. The trampolines run on engine threads and the registries are unsynchronised; the model is single-threaded.
- Floating-point values are opaque bit patterns (`bv32`, `bv64`). No arithmetic is done on them.
- `storeContextInMutableDict` and `conflictResolverBridge` are not part of this model. Neither is the `conflictResolver` key variable: `Replicator.NewReplicator` takes that key as a parameter. The registry map declarations are outside this model too.
  - The registries are taken to be initialised, since Go panics on a write to a nil map.
  - The dict built from a context is the value `DictPtr(context, keys)`.
- The map keys given to the writer, to `SetParameters`, to the headers and to `syncMapToUnderlyingDict` are kept whole. `C.CString` would cut a key at its first NUL. Two keys could then collide, and the surviving entry would depend on Go's random map order.
- `Set_Null` is applied to a field's value rather than its address. Its effect is left out, and such fields are modelled as unset.
- The flags of an engine number read by `ValueBridge.Read` are the engine's classification and are taken as given; only `ReadScalarRoundTrip` asks them to follow Fleece's rule.
- An empty replicated-document array stands for the NULL pointer the trampoline would dereference.
- `NewProxySettings` only builds a struct. It is the `ProxySettings` constructor.
- `Stop`, `Release`, the close functions and the other one-call wrappers have no logic of their own.
- Error codes read after a success are not pinned down. Except in `Save`, the binding's `CBLError` comes from `C.malloc` and the engine writes it only on failure, so after a success its `code` is whatever the memory held and a success can read as a failure. The `code` parameters of `Blobs.NewReadStream`, `Blobs.NewBlobWriter`, `Blobs.ReadContent`, `Database.Open`, `Database.BoolUnlessError`, `Database.PurgeResult` and `Replicator.NewReplicator` are whatever the field holds after the call.
- A configuration without channels leaves `channels` of the `C.malloc`'d native configuration unassigned, so the engine reads whatever the memory held; the model records it as `None`.
- The formatted message text of internal errors is not modelled. `EngineError` keeps only the domain and code it formats.
- ValueBridge.Write: does not state the contents of the container slots in its own contract, because `WriteThenDecode` and `CanonicalRoundTrip` state them through read-back. It is the intended writer; the code as written is `WriteAsWritten`.
- ValueBridge.WriteThenDecode: its slice and map cases hold of the intended writer only; the writer as written loses every container (`ContainersLost`).
- ValueBridge.CanonicalRoundTrip: its slice and map cases hold of the intended writer only; as written a container decodes back as nil (`ContainersLost`).
- Document.SyncRoundTrip: list and map properties decode back only with the intended writer; as written they are attached as NULL.
- Replicator.HeadersRoundTrip: nested list and map headers decode back only with the intended writer; as written they are attached as NULL.
- Query.SetParameters: relates the engine's later read of the bindings to the parameters only for scalar values (`SetThenGetParameters`); containers are covered by the writer's round-trip lemmas. It is the intended binding; as written the engine is handed NULL (`SetParametersAsWritten`).
- Blobs.ReadContent: takes the engine's promise (a count between 0 and the buffer length, that many bytes written) as a precondition, because the binding relies on it without checking.

## Findings

| source | as written | input that shows it | evidently intended | confidence | as-written member | corrected member |
|---|---|---|---|---|---|---|
| bridge.go:35-37 | `ids[i] = C.GoString(*docIDs)` never advances `docIDs`, so every ID is the first one | two changed documents "a" and "b": the listener receives ["a", "a"] | each document ID once, in order | high (not executed) | Bridge.CopyDocIds, Bridge.RepeatedFirstIdLosesIds | Bridge.CopyDocIdsCorrected, Bridge.DatabaseListenerBridgeCorrected |
| query.go:228-231 | `if value, err := ...; err != nil { return value }` returns the value only when conversion fails | a result column holding the string "x": `ValueAtIndex(0)` returns nil | return the converted value when `err == nil` | high (not executed) | Query.ValueAtIndex, Query.ColumnValueDiscarded | Query.ValueAtIndexCorrected |
| query.go:245-248 | the same inverted test in `ValueForKey` | a column "x" holding a string: `ValueForKey("x")` returns nil | return the converted value when `err == nil` | high (not executed) | Query.ValueForKey, Query.ColumnValueDiscarded | Query.ValueForKeyCorrected |
| database.go:33-37 | `2 ^ iota` is exclusive or, giving Create = 2, ReadOnly = 3, NoUpgrade = 0 | `Databse_ReadOnly & Database_Create != 0`, and `Database_NoUpgrade` has no bit | one distinct bit per flag (`1 << iota`) | high (not executed) | Database.FlagsAsWrittenOverlap | Database.FlagsCorrectedDisjoint |
| database.go:440-445 | the parameter `callback` shadows the key of the same name, so the function value is the context key | any call of `DatabaseBufferNotifications` with a non-nil context panics, since a function is not comparable | store the callback under the key "CALLBACK" | high (not executed) | Database.BufferNotificationsPanics | Database.BufferNotificationsCorrected, Database.BufferNotificationsCorrectedDispatch |
| document.go:454-455 | a nested slice or map is attached as `FLMutableArray_GetSource` / `FLMutableDict_GetSource` of a container made by `New`, which is NULL; the same at document.go:527-528 and in the copy in bridge.go | a property holding `[]interface{}{int64(1)}` is synced as NULL, not as the array [1] | attach the container that was filled | high (not executed) | ValueBridge.WriteAsWritten, ValueBridge.ContainersLost, ValueBridge.ContainerLostExample | ValueBridge.Write, ValueBridge.CanonicalRoundTrip |
| query.go:119-120 | the engine is handed `FLMutableDict_GetSource` of a dict made by `FLMutableDict_New`, which is NULL, in place of the bindings | `SetParameters(map[string]interface{}{"x": "x"})`: the engine receives NULL and `GetParameters` returns no "x" | hand the filled dict to `CBLQuery_SetParameters` | high (not executed) | Query.SetParametersAsWritten, Query.ParameterLost | Query.SetParameters, Query.SetThenGetParameters |
| document.go:365-368 | `FLValue_IsInteger` is tested before `FLValue_IsUnsigned`, and Fleece flags every unsigned integer as an integer too, so the unsigned branch is never taken | a `uint64(1 << 63)` stored with `FLSlot_SetUInt` reads back as `int64(-1 << 63)` | test `FLValue_IsUnsigned` first, so that a value only a `uint64` holds is read as one | medium (not executed) | ValueBridge.ReadNumber, ValueBridge.UnsignedReadBackAsWritten | ValueBridge.ReadNumberCorrected, ValueBridge.IntegerReadBackCorrected |
