/**
 The document-level logic of document.go: listing a document's keys,
 writing a Go property map back into the document's engine dict, the
 read-only guard of `Save`, and registering a document change listener.
 */
module Document {
  import opened Common
  import opened Values
  import opened ValueBridge
  import opened Contexts
  import opened Bridge

  /** A Go `Document`: its read-only flag, its Go property map, and the
      engine document it wraps. */
  datatype Document = Document(readOnly: bool, props: map<string, GoValue>, handle: nat)

  // ---------------------------------------------------------------------------
  // getDocumentKeysHelper

  /** `getDocumentKeysHelper`: a slice sized by the iterator's count, filled
      with each entry's key in iteration order. Keys are read with
      `C.GoStringN`, so a key containing NUL is kept whole. */
  method DocumentKeys(entries: seq<Entry>) returns (keys: seq<string>)
    ensures |keys| == |entries|
    ensures forall i :: 0 <= i < |entries| ==> keys[i] == entries[i].key
  {
    keys := seq(|entries|, _ => "");
    var i := 0;
    while i < |entries|
      invariant 0 <= i <= |entries|
      invariant |keys| == |entries|
      invariant forall j :: 0 <= j < i ==> keys[j] == entries[j].key
    {
      keys := keys[i := entries[i].key];
      i := i + 1;
    }
  }

  // ---------------------------------------------------------------------------
  // syncMapToUnderlyingDict

  /** What `syncMapToUnderlyingDict` does: nothing, for a read-only document
      (it returns false); otherwise it installs a fresh dict built from the
      property map (and returns true), unless the writer panics on a value. */
  datatype SyncOutcome = NotSynced | Synced(properties: map<string, Slot>) | SyncPanicked

  /** The slot one property is written to: a `*Blob` at the top level goes
      through `FLMutableDict_SetBlob`; any other value through the writer. */
  function PropertySlot(v: GoValue): Slot {
    if v.BlobRef? then BlobSlot(v.blob) else SlotOf(Write(v))
  }

  /** A property whose writing panics: a top-level blob is never handed to the writer. */
  predicate PropertyPanics(v: GoValue) {
    !v.BlobRef? && WritePanics(v)
  }

  function Sync(doc: Document): (r: SyncOutcome)
    ensures doc.readOnly ==> r.NotSynced?
    ensures !doc.readOnly ==> (r.SyncPanicked? <==> exists k :: k in doc.props && PropertyPanics(doc.props[k]))
    ensures r.Synced? ==> !doc.readOnly && r.properties.Keys == doc.props.Keys
    ensures r.Synced? ==> forall k :: k in doc.props && doc.props[k].BlobRef? ==>
      r.properties[k] == BlobSlot(doc.props[k].blob)
  {
    WriteOutcomesAll(doc.props);
    if doc.readOnly then NotSynced
    else if exists k :: k in doc.props && Write(doc.props[k]).WritePanicked? && !doc.props[k].BlobRef? then
      SyncPanicked
    else Synced(map k | k in doc.props :: PropertySlot(doc.props[k]))
  }

  /** The host values a synced document reads back unchanged. */
  predicate SyncsExactly(v: GoValue) {
    v.BlobRef? || Canonical(v)
  }

  /** Syncing a writable document whose properties are blobs or canonical
      values installs a dict that decodes back to the very same map. */
  lemma SyncRoundTrip(doc: Document)
    requires !doc.readOnly
    requires forall k :: k in doc.props ==> SyncsExactly(doc.props[k])
    ensures Sync(doc).Synced?
    ensures forall k :: k in doc.props ==> SlotToGo(Sync(doc).properties[k]) == doc.props[k]
  {
    forall k | k in doc.props && !doc.props[k].BlobRef?
      ensures !WritePanics(doc.props[k]) && SlotToGo(SlotOf(Write(doc.props[k]))) == doc.props[k]
    {
      CanonicalRoundTrip(doc.props[k]);
      CanonicalWidens(doc.props[k]);
    }
  }

  // ---------------------------------------------------------------------------
  // Save

  /** `Database.Save`: a read-only document is refused before the engine is
      asked; otherwise the engine's error code decides, and on success the
      document wraps the saved engine document. */
  function Save(doc: Document, code: int, saved: nat): (r: Result<Document>)
    ensures doc.readOnly ==> r == Failure(DocumentIsNotReadOnly)
    ensures !doc.readOnly && code != 0 ==> r == Failure(ProblemSavingDocument)
    ensures r.Success? <==> !doc.readOnly && code == 0
    ensures r.Success? ==> r.value.handle == saved && r.value.props == doc.props && !r.value.readOnly
  {
    if doc.readOnly then Failure(DocumentIsNotReadOnly)
    else if code == 0 then Success(doc.(handle := saved))
    else Failure(ProblemSavingDocument)
  }

  // ---------------------------------------------------------------------------
  // AddDocumentChangeListener

  /** The result of a registration that returns only an error: the error,
      the registries afterwards, and the context pointer handed to the
      engine (none when the engine was not called). */
  datatype Listening = Listening(err: Option<CblError>, registry: Registry, carried: Option<Carried>)

  /** `AddDocumentChangeListener`: with a string under "UUID" the listener
      and the engine's token are stored under that string and the engine is
      given the caller's context, unchanged; otherwise an error is returned
      and nothing is stored. */
  function AddDocumentChangeListener(reg: Registry, listener: Callback, docId: string,
                                     ctx: GoContext, token: nat): (r: Outcome<Listening>)
    requires listener.kind == DocumentChangeListener
    ensures r.Panicked? <==> ctx.NilContext?
    ensures r.Returned? ==> (r.value.err.None? <==> Uuid(ctx).value.Some?)
    ensures r.Returned? && r.value.err.Some? ==>
      r.value == Listening(Some(NoUuidInContext), reg, None)
    ensures r.Returned? && r.value.err.None? ==>
      var key := Uuid(ctx).value.value;
      r.value.registry == reg.(documentListeners := reg.documentListeners[key := listener],
                               listenerTokens := reg.listenerTokens[key := token]) &&
      r.value.carried == Some(ContextPtr(ctx))
  {
    match Uuid(ctx)
    case Panicked(p) => Panicked(p)
    case Returned(None) => Returned(Listening(Some(NoUuidInContext), reg, None))
    case Returned(Some(key)) =>
      Returned(Listening(None,
        reg.(documentListeners := reg.documentListeners[key := listener],
             listenerTokens := reg.listenerTokens[key := token]),
        Some(ContextPtr(ctx))))
  }

  /** The registered listener is never what the engine's later callback
      reaches: the context handed over is the caller's, so the trampoline
      finds a document listener only if the caller had already put one under
      "CALLBACK", and panics otherwise. */
  lemma DocumentListenerDispatch(reg: Registry, listener: Callback, docId: string,
                                 ctx: GoContext, token: nat, db: nat, changed: string)
    requires listener.kind == DocumentChangeListener
    requires AddDocumentChangeListener(reg, listener, docId, ctx, token).Returned?
    requires AddDocumentChangeListener(reg, listener, docId, ctx, token).value.err.None?
    ensures
      var d := DocumentListenerBridge(AddDocumentChangeListener(reg, listener, docId, ctx, token).value.carried.value, db, changed);
      (d.Invoked? <==> StrKey(CallbackKey) in ctx.values && ctx.values[StrKey(CallbackKey)].CtxFunc? &&
                       ctx.values[StrKey(CallbackKey)].fn.kind == DocumentChangeListener) &&
      (!d.Invoked? ==> d == DispatchPanicked(FailedTypeAssertion))
  {
  }
}
