/**
 The exported trampolines of bridge.go. The engine calls each with the
 opaque context pointer it was given at registration. The trampoline turns the
 native arguments into Go values, reads the Go callback out of the carried
 context under a fixed key with a single-result type assertion, and calls it
 once. A call is modelled as the `Dispatch` it performs: the callback invoked,
 with the context and the event it receives; or the panic raised before the
 call; or `NotAContext` when the carried pointer is not a Go context at all.
 */
module Bridge {
  import opened Common
  import opened Contexts
  import opened Status

  /** The Go arguments a listener receives besides its context. Engine
      objects (database, query, document, replicator) are opaque handles. */
  datatype Event =
    | DatabaseChanged(db: nat, ids: seq<string>)
    | DocumentChanged(db: nat, docId: string)
    | NotificationsReady(db: nat)
    | QueryChanged(query: nat)
    | FilterCall(doc: nat, isDeleted: bool)
    | ReplicatorChanged(replicator: nat, status: ReplicatorStatus)
    | DocumentsReplicated(replicator: nat, isPush: bool, numDocuments: nat, document: ReplicatedDocument)

  datatype Dispatch =
    | Invoked(listener: Callback, ctx: GoContext, event: Event)
    | DispatchPanicked(reason: PanicReason)
    | NotAContext

  /** `callback := (*ctx).Value(key).(Kind); callback(*ctx, ...)`. */
  function Deliver(c: Carried, key: string, kind: ListenerKind, e: Event): (d: Dispatch)
    ensures c.DictPtr? <==> d.NotAContext?
    ensures d.Invoked? <==>
      c.ContextPtr? && c.ctx.Context? && StrKey(key) in c.ctx.values &&
      c.ctx.values[StrKey(key)].CtxFunc? && c.ctx.values[StrKey(key)].fn.kind == kind
    ensures d.Invoked? ==> d == Invoked(c.ctx.values[StrKey(key)].fn, c.ctx, e)
    ensures c.ContextPtr? && c.ctx.NilContext? ==> d == DispatchPanicked(NilDereference)
    ensures c.ContextPtr? && c.ctx.Context? && !d.Invoked? ==> d == DispatchPanicked(FailedTypeAssertion)
  {
    match c
    case DictPtr(_, _) => NotAContext
    case ContextPtr(ctx) =>
      match Value(ctx, key)
      case Panicked(p) => DispatchPanicked(p)
      case Returned(v) =>
        match AssertCallback(v, kind)
        case Returned(cb) => Invoked(cb, ctx, e)
        case Panicked(p) => DispatchPanicked(p)
  }

  // ---------------------------------------------------------------------------
  // databaseListenerBridge

  /** The IDs list as written: `numDocs` copies of the first ID, because the
      loop reads `*docIDs` without ever advancing the pointer. */
  function RepeatedFirstId(docIDs: seq<string>): (ids: seq<string>)
  {
    if |docIDs| == 0 then [] else seq(|docIDs|, _ => CString(docIDs[0]))
  }

  /** The IDs list the listener is evidently meant to receive: each ID once, in order. */
  function EachId(docIDs: seq<string>): (ids: seq<string>)
  {
    seq(|docIDs|, i requires 0 <= i < |docIDs| => CString(docIDs[i]))
  }

  /** The copy loop of `databaseListenerBridge` as written. */
  method CopyDocIds(numDocs: UInt32, docIDs: seq<string>) returns (ids: seq<string>)
    requires |docIDs| == numDocs
    ensures |ids| == numDocs
    ensures forall i :: 0 <= i < |ids| ==> ids[i] == CString(docIDs[0])
    ensures ids == RepeatedFirstId(docIDs)
  {
    ids := [];
    var i := 0;
    while i < numDocs
      invariant 0 <= i <= numDocs
      invariant |ids| == i
      invariant forall j :: 0 <= j < i ==> ids[j] == CString(docIDs[0])
    {
      ids := ids + [CString(docIDs[0])];
      i := i + 1;
    }
  }

  /** The copy loop with the pointer advanced on each step. */
  method CopyDocIdsCorrected(numDocs: UInt32, docIDs: seq<string>) returns (ids: seq<string>)
    requires |docIDs| == numDocs
    ensures |ids| == numDocs
    ensures forall i :: 0 <= i < |ids| ==> ids[i] == CString(docIDs[i])
    ensures ids == EachId(docIDs)
  {
    ids := [];
    var i := 0;
    while i < numDocs
      invariant 0 <= i <= numDocs
      invariant |ids| == i
      invariant forall j :: 0 <= j < i ==> ids[j] == CString(docIDs[j])
    {
      ids := ids + [CString(docIDs[i])];
      i := i + 1;
    }
  }

  /** With two different document IDs the listener sees the first one twice. */
  lemma RepeatedFirstIdLosesIds()
    ensures RepeatedFirstId(["a", "b"]) == ["a", "a"]
    ensures EachId(["a", "b"]) == ["a", "b"]
  {
    CStringIdentity("a");
    CStringIdentity("b");
  }

  /** The two lists agree exactly when every ID reads like the first. */
  lemma RepeatedFirstIdAgrees(docIDs: seq<string>)
    ensures RepeatedFirstId(docIDs) == EachId(docIDs) <==>
      forall i :: 0 <= i < |docIDs| ==> CString(docIDs[i]) == CString(docIDs[0])
  {
    if RepeatedFirstId(docIDs) == EachId(docIDs) {
      forall i | 0 <= i < |docIDs|
        ensures CString(docIDs[i]) == CString(docIDs[0])
      {
        assert RepeatedFirstId(docIDs)[i] == EachId(docIDs)[i];
      }
    }
  }

  /** `databaseListenerBridge` as written. */
  method DatabaseListenerBridge(c: Carried, db: nat, numDocs: UInt32, docIDs: seq<string>)
    returns (d: Dispatch)
    requires |docIDs| == numDocs
    ensures d == Deliver(c, CallbackKey, DatabaseChangeListener, DatabaseChanged(db, RepeatedFirstId(docIDs)))
    ensures d.Invoked? ==> |d.event.ids| == numDocs
  {
    var ids := CopyDocIds(numDocs, docIDs);
    d := Deliver(c, CallbackKey, DatabaseChangeListener, DatabaseChanged(db, ids));
  }

  /** `databaseListenerBridge` with the copy loop corrected. */
  method DatabaseListenerBridgeCorrected(c: Carried, db: nat, numDocs: UInt32, docIDs: seq<string>)
    returns (d: Dispatch)
    requires |docIDs| == numDocs
    ensures d == Deliver(c, CallbackKey, DatabaseChangeListener, DatabaseChanged(db, EachId(docIDs)))
  {
    var ids := CopyDocIdsCorrected(numDocs, docIDs);
    d := Deliver(c, CallbackKey, DatabaseChangeListener, DatabaseChanged(db, ids));
  }

  // ---------------------------------------------------------------------------
  // The other trampolines

  /** `documentListenerBridge`: the document ID through `C.GoString`. */
  function DocumentListenerBridge(c: Carried, db: nat, docId: string): (d: Dispatch)
    ensures d.Invoked? ==> d.listener.kind == DocumentChangeListener
    ensures d.Invoked? ==> d.event == DocumentChanged(db, CString(docId))
  {
    Deliver(c, CallbackKey, DocumentChangeListener, DocumentChanged(db, CString(docId)))
  }

  /** `notificationBridge`. The C side declares it as taking the context
      alone and the shim calls it so, while the Go function takes `(c, db)`:
      the database the callback receives is whatever the second argument
      register holds, `stray`, which need not be the engine's database. */
  function NotificationBridge(c: Carried, stray: nat): (d: Dispatch)
    ensures d.Invoked? ==> d.listener.kind == NotificationsReadyCallback && d.event == NotificationsReady(stray)
  {
    Deliver(c, CallbackKey, NotificationsReadyCallback, NotificationsReady(stray))
  }

  /** `queryListenerBride`. */
  function QueryListenerBridge(c: Carried, query: nat): (d: Dispatch)
    ensures d.Invoked? ==> d.listener.kind == QueryChangeListener && d.event == QueryChanged(query)
  {
    Deliver(c, CallbackKey, QueryChangeListener, QueryChanged(query))
  }

  /** What a filter trampoline hands back to the engine: the call it made,
      and the verdict it returns, if any. `None` is a Go function with no
      result: the C shim is declared to return `bool` and passes on whatever
      the result register holds, so the engine reads an indeterminate verdict. */
  datatype FilterReply = FilterReply(dispatch: Dispatch, verdict: Option<bool>)

  /** `pushFilterBridge` / `pullFilterBridge`: the filter is read under
      "PUSHCALLBACK" or "PULLCALLBACK" and called, but the Go function has
      no result, so the filter's verdict never reaches the engine, which
      reads an indeterminate one instead. */
  function FilterBridge(c: Carried, push: bool, doc: nat, isDeleted: bool): (r: FilterReply)
    ensures r.verdict.None?
    ensures r.dispatch.Invoked? ==> r.dispatch.listener.kind == ReplicationFilter
    ensures r.dispatch.Invoked? ==>
      var key := StrKey(if push then PushCallbackKey else PullCallbackKey);
      c.ContextPtr? && c.ctx.Context? && key in c.ctx.values &&
      c.ctx.values[key] == CtxFunc(r.dispatch.listener)
    ensures r.dispatch.Invoked? ==> r.dispatch.event == FilterCall(doc, isDeleted)
  {
    var key := if push then PushCallbackKey else PullCallbackKey;
    FilterReply(Deliver(c, key, ReplicationFilter, FilterCall(doc, isDeleted)), None)
  }

  /** `replicatorChangeBridge`: the status converted field for field. */
  function ReplicatorChangeBridge(c: Carried, replicator: nat, status: NativeStatus): (d: Dispatch)
    ensures d.Invoked? ==> d.listener.kind == ReplicatorChangeListener
    ensures d.Invoked? ==> d.event == ReplicatorChanged(replicator, ConvertStatus(status))
  {
    Deliver(c, CallbackKey, ReplicatorChangeListener, ReplicatorChanged(replicator, ConvertStatus(status)))
  }

  /** `replicatedDocumentBridge`: only the first native record is converted,
      while the count is passed on unchanged. An empty record array stands
      for the NULL pointer the trampoline would dereference. */
  function ReplicatedDocumentBridge(c: Carried, replicator: nat, isPush: bool, numDocuments: UInt32,
                                    documents: seq<NativeReplicatedDoc>): (d: Dispatch)
    ensures |documents| == 0 ==> d == DispatchPanicked(NilDereference)
    ensures d.Invoked? ==> d.listener.kind == ReplicatedDocumentListener
    ensures d.Invoked? ==>
      d.event == DocumentsReplicated(replicator, isPush, numDocuments, ConvertReplicatedDoc(documents[0]))
  {
    if |documents| == 0 then DispatchPanicked(NilDereference)
    else
      Deliver(c, CallbackKey, ReplicatedDocumentListener,
        DocumentsReplicated(replicator, isPush, numDocuments, ConvertReplicatedDoc(documents[0])))
  }

  /** Whatever the later records hold, the listener sees the first one only. */
  lemma OnlyFirstReplicatedDoc(c: Carried, replicator: nat, isPush: bool,
                               docs: seq<NativeReplicatedDoc>, more: seq<NativeReplicatedDoc>)
    requires |docs| > 0
    ensures ReplicatedDocumentBridge(c, replicator, isPush, |docs + more| % 0x1_0000_0000, docs + more)
         == ReplicatedDocumentBridge(c, replicator, isPush, |docs + more| % 0x1_0000_0000, docs[..1])
  {
  }
}
