/**
 Go contexts, the binding's callback registries and listener tokens.

 The binding hands the engine a pointer to a Go `context.Context` as the
 opaque `void *context` of every listener, and finds the Go callback again by
 looking it up in that context under a fixed string key. A context is
 modelled as the map its chain of `WithValue` layers denotes (a newer layer
 shadows an older one, which is map update); a Go function value stored in a
 context carries the named function type it was stored as.
 */
module Contexts {
  import opened Common

  /** The named Go function types the binding stores and asserts. */
  datatype ListenerKind =
    | DatabaseChangeListener
    | DocumentChangeListener
    | NotificationsReadyCallback
    | QueryChangeListener
    | ReplicationFilter
    | ConflictResolver
    | ReplicatorChangeListener
    | ReplicatedDocumentListener

  /** A Go function value of a given named type; `id` tells function values apart. */
  datatype Callback = Callback(kind: ListenerKind, id: nat)

  /** A key given to `context.WithValue`. Go compares keys with `==`, so a
      function value is not a usable key. */
  datatype CtxKey = StrKey(name: string) | FuncKey(fn: Callback) | OtherKey(id: nat)

  datatype CtxValue = CtxString(s: string) | CtxFunc(fn: Callback) | CtxOther(id: nat)

  /** A `context.Context` interface value: nil, or the values visible through it. */
  datatype GoContext = NilContext | Context(values: map<CtxKey, CtxValue>)

  /** The key strings declared at package level in database.go. */
  const UuidKey: string := "UUID"
  const CallbackKey: string := "CALLBACK"
  const PushCallbackKey: string := "PUSHCALLBACK"
  const PullCallbackKey: string := "PULLCALLBACK"

  /** The four context keys are pairwise distinct, so no lookup can see a
      value stored under another key. */
  lemma KeysDistinct()
    ensures UuidKey != CallbackKey && UuidKey != PushCallbackKey && UuidKey != PullCallbackKey
    ensures CallbackKey != PushCallbackKey && CallbackKey != PullCallbackKey
    ensures PushCallbackKey != PullCallbackKey
  {
  }

  /** `ctx.Value(name)`: calling a method on a nil interface panics; an
      absent key yields nil. */
  function Value(ctx: GoContext, name: string): (r: Outcome<Option<CtxValue>>)
    ensures r.Panicked? <==> ctx.NilContext?
    ensures r.Returned? ==> (r.value.Some? <==> StrKey(name) in ctx.values)
    ensures r.Returned? && r.value.Some? ==> r.value.value == ctx.values[StrKey(name)]
  {
    match ctx
    case NilContext => Panicked(NilDereference)
    case Context(values) =>
      if StrKey(name) in values then Returned(Some(values[StrKey(name)])) else Returned(None)
  }

  /** `context.WithValue(ctx, key, val)`: Go refuses a nil parent and a key
      whose type is not comparable. */
  function WithValue(ctx: GoContext, key: CtxKey, val: CtxValue): (r: Outcome<GoContext>)
    ensures ctx.NilContext? ==> r == Panicked(NilDereference)
    ensures ctx.Context? && key.FuncKey? ==> r == Panicked(NonComparableKey)
    ensures r.Returned? ==> r.value.Context? && key in r.value.values && r.value.values[key] == val
    ensures r.Returned? ==> forall k :: k != key ==>
      (k in r.value.values <==> k in ctx.values) &&
      (k in ctx.values ==> r.value.values[k] == ctx.values[k])
  {
    match ctx
    case NilContext => Panicked(NilDereference)
    case Context(values) =>
      if key.FuncKey? then Panicked(NonComparableKey) else Returned(Context(values[key := val]))
  }

  /** A value stored by `WithValue` under a string key is what `Value` finds
      under that key afterwards. */
  lemma WithValueThenValue(ctx: GoContext, name: string, val: CtxValue)
    requires ctx.Context?
    ensures WithValue(ctx, StrKey(name), val).Returned?
    ensures Value(WithValue(ctx, StrKey(name), val).value, name) == Returned(Some(val))
  {
  }

  /** The registration guard `if v := ctx.Value(uuid); v != nil { key, ok :=
      v.(string); if ok ... }`: the string under "UUID", if any. */
  function Uuid(ctx: GoContext): (r: Outcome<Option<string>>)
    ensures r.Panicked? <==> ctx.NilContext?
    ensures r.Returned? ==>
      (r.value.Some? <==> StrKey(UuidKey) in ctx.values && ctx.values[StrKey(UuidKey)].CtxString?)
    ensures r.Returned? && r.value.Some? ==> ctx.values[StrKey(UuidKey)] == CtxString(r.value.value)
  {
    match Value(ctx, UuidKey)
    case Panicked(p) => Panicked(p)
    case Returned(v) =>
      if v.Some? && v.value.CtxString? then Returned(Some(v.value.s)) else Returned(None)
  }

  /** A single-result type assertion `v.(T)` to a named function type. */
  function AssertCallback(v: Option<CtxValue>, kind: ListenerKind): (r: Outcome<Callback>)
    ensures r.Returned? <==> v.Some? && v.value.CtxFunc? && v.value.fn.kind == kind
    ensures r.Returned? ==> r.value == v.value.fn
    ensures r.Panicked? ==> r.reason == FailedTypeAssertion
  {
    if v.Some? && v.value.CtxFunc? && v.value.fn.kind == kind then Returned(v.value.fn)
    else Panicked(FailedTypeAssertion)
  }

  /** A single-result type assertion `v.(string)`. */
  function AssertString(v: Option<CtxValue>): (r: Outcome<string>)
    ensures r.Returned? <==> v.Some? && v.value.CtxString?
    ensures r.Returned? ==> r.value == v.value.s
    ensures r.Panicked? ==> r.reason == FailedTypeAssertion
  {
    if v.Some? && v.value.CtxString? then Returned(v.value.s) else Panicked(FailedTypeAssertion)
  }

  /** `ctx.Value(name).(string)`, as `NewReplicator` reads a filter's registry key. */
  function StringAt(ctx: GoContext, name: string): (r: Outcome<string>)
    ensures r.Returned? <==>
      ctx.Context? && StrKey(name) in ctx.values && ctx.values[StrKey(name)].CtxString?
    ensures r.Returned? ==> ctx.values[StrKey(name)] == CtxString(r.value)
  {
    match Value(ctx, name)
    case Panicked(p) => Panicked(p)
    case Returned(v) => AssertString(v)
  }

  // ---------------------------------------------------------------------------
  // Registries and tokens

  /** The registries declared at package level, keyed by the string found under "UUID"
      (or under a filter's key). They are taken as initialised: Go panics on
      a write to a nil map, and their declarations lie outside this model. */
  datatype Registry = Registry(
    documentListeners: map<string, Callback>,
    listenerTokens: map<string, nat>,
    replicatorListeners: map<string, Callback>,
    replicatedDocListeners: map<string, Callback>,
    pushFilters: map<string, Callback>,
    pullFilters: map<string, Callback>,
    resolvers: map<string, Callback>)

  /** `ListenerToken`: the three-field form of replicator.go (registry key,
      native token, listener kind name), and the one-field form of
      database.go that only wraps the native token. */
  datatype ListenerToken = Token(key: string, handle: nat, kind: string) | BareToken(handle: nat)

  /** What the engine is handed as a listener's `void *context` and passes
      back to the trampoline: the address of a Go context, or a Fleece dict
      built from a context by `storeContextInMutableDict`. */
  datatype Carried = ContextPtr(ctx: GoContext) | DictPtr(source: GoContext, keys: seq<string>)

  /** `delete(m, key)`: removes exactly `key`; an absent key is a no-op. */
  function Delete(m: map<string, Callback>, key: string): (r: map<string, Callback>)
    ensures key !in r
    ensures forall k :: k != key ==> (k in r <==> k in m) && (k in r ==> r[k] == m[k])
    ensures key !in m ==> r == m
  {
    m - {key}
  }
}
