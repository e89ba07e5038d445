/**
 The replicator-level logic of replicator.go: encoding a
 `ReplicatorConfiguration` into the engine's configuration struct while
 registering its filters and conflict resolver, registering replicator
 listeners, removing filters, and reading the status.
 */
module Replicator {
  import opened Common
  import opened Values
  import opened ValueBridge
  import opened Contexts
  import opened Status
  import opened Bridge

  type UInt16 = x: int | 0 <= x < 0x1_0000

  /** `ReplicatorType` constants, `iota` from 0. */
  const PushAndPull: UInt8 := 0
  const Push: UInt8 := 1
  const Pull: UInt8 := 2

  /** `ProxySettings`, and equally the engine's `CBLProxySettings`. */
  datatype ProxySettings = ProxySettings(proxyType: UInt8, hostname: string, port: UInt16,
                                         username: string, password: string)

  /** `ReplicatorConfiguration`. The database, endpoint and authenticator
      pointers are `None` when nil; engine objects are opaque handles. */
  datatype ReplicatorConfiguration = ReplicatorConfiguration(
    db: Option<nat>,
    endpoint: Option<nat>,
    replicatorType: UInt8,
    continuous: bool,
    auth: Option<nat>,
    proxy: Option<ProxySettings>,
    pinnedServerCertificate: seq<byte>,
    trustedRootCertificates: seq<byte>,
    headers: map<string, GoValue>,
    channels: seq<string>,
    documentIds: seq<string>,
    pushFilter: Option<Callback>,
    pullFilter: Option<Callback>,
    resolver: Option<Callback>,
    filterContext: GoContext,
    filterKeys: seq<string>)

  /** An `FLSlice`: the null slice, or a pointer to a copy of some bytes. */
  datatype NativeSlice = NullSlice | SliceOf(bytes: seq<byte>)

  /** The fields of `CBLReplicatorConfiguration` the binding fills in. A
      callback field records whether its trampoline was installed; `channels`
      is `None` when it is never assigned (the struct comes from `C.malloc`,
      so the engine then reads whatever the memory held); `context` is the dict built from
      the filter context, or `None` when it is left null. */
  datatype NativeConfig = NativeConfig(
    database: nat,
    endpoint: nat,
    replicatorType: UInt8,
    continuous: bool,
    authenticator: nat,
    proxy: Option<ProxySettings>,
    pinnedServerCertificate: NativeSlice,
    trustedRootCertificates: NativeSlice,
    headers: map<string, Slot>,
    channels: Option<seq<Slot>>,
    documentIDs: seq<Slot>,
    pushFilter: bool,
    pullFilter: bool,
    conflictResolver: bool,
    context: Option<Carried>)

  /** What `NewReplicator` leaves behind: the engine configuration, the
      registries and the Go result; or a panic, with the registry writes made
      before it. */
  datatype Construction =
    | Built(config: NativeConfig, registry: Registry, replicator: Result<nat>)
    | BuildPanicked(registry: Registry)

  // ---------------------------------------------------------------------------
  // Field encodings

  /** The proxy copy: type and port as they are, the strings through `C.CString`. */
  function NativeProxy(p: ProxySettings): (n: ProxySettings)
    ensures n.proxyType == p.proxyType && n.port == p.port
    ensures n.hostname <= p.hostname && NulFree(n.hostname)
    ensures n.username <= p.username && NulFree(n.username)
    ensures n.password <= p.password && NulFree(n.password)
  {
    ProxySettings(p.proxyType, CString(p.hostname), p.port, CString(p.username), CString(p.password))
  }

  /** The proxy reaches the engine unchanged exactly when its strings have no NUL. */
  lemma NativeProxyPreserved(p: ProxySettings)
    ensures NativeProxy(p) == p <==> NulFree(p.hostname) && NulFree(p.username) && NulFree(p.password)
  {
  }

  /** A certificate: a non-empty one becomes a slice over a copy of its
      bytes, an empty one the null slice. */
  function CertificateSlice(cert: seq<byte>): (s: NativeSlice)
    ensures s.NullSlice? <==> |cert| == 0
    ensures s.SliceOf? ==> |s.bytes| == |cert|
  {
    if |cert| > 0 then SliceOf(cert) else NullSlice
  }

  /** The bytes a slice denotes; the null slice denotes none. */
  function SliceBytes(s: NativeSlice): seq<byte> {
    match s
    case NullSlice => []
    case SliceOf(bytes) => bytes
  }

  /** No certificate byte is lost or changed. */
  lemma CertificateRoundTrip(cert: seq<byte>)
    ensures SliceBytes(CertificateSlice(cert)) == cert
  {
  }

  /** A `[]string` appended slot by slot through the writer, in order. */
  function EncodeStrings(xs: seq<string>): (r: seq<Slot>)
    ensures |r| == |xs|
    ensures forall i :: 0 <= i < |xs| ==> r[i].StringSlot? && r[i].s <= xs[i] && NulFree(r[i].s)
  {
    seq(|xs|, i requires 0 <= i < |xs| => SlotOf(Write(Str(xs[i]))))
  }

  /** NUL-free strings read back from their slots unchanged and in order. */
  lemma EncodeStringsRoundTrip(xs: seq<string>)
    requires forall i :: 0 <= i < |xs| ==> NulFree(xs[i])
    ensures forall i :: 0 <= i < |xs| ==> SlotToGo(EncodeStrings(xs)[i]) == Str(xs[i])
  {
  }

  /** `cfg.Filter != nil` followed by `cfg.FilterContext.Value(key).(string)`
      and a registry write under that string. A nil filter leaves the registry
      as it was. */
  function RegisterUnder(m: map<string, Callback>, f: Option<Callback>, ctx: GoContext, key: string)
    : (r: Outcome<map<string, Callback>>)
    ensures f.None? ==> r == Returned(m)
    ensures f.Some? ==> (r.Returned? <==> StringAt(ctx, key).Returned?)
    ensures f.Some? && r.Returned? ==>
      ctx.values[StrKey(key)] == CtxString(StringAt(ctx, key).value) &&
      r.value.Keys == m.Keys + {StringAt(ctx, key).value} &&
      r.value[StringAt(ctx, key).value] == f.value
  {
    match f
    case None => Returned(m)
    case Some(cb) =>
      match StringAt(ctx, key)
      case Panicked(p) => Panicked(p)
      case Returned(k) => Returned(m[k := cb])
  }

  /** Whether a filter's registration goes through. */
  predicate Registers(f: Option<Callback>, ctx: GoContext, key: string) {
    f.None? || StringAt(ctx, key).Returned?
  }

  // ---------------------------------------------------------------------------
  // NewReplicator

  /** `NewReplicator`. The nil-pointer fields are dereferenced first; the
      headers go through the writer into a fresh dict; the filters and the
      resolver are registered in order, the resolver under the string found
      at `resolverKey`; the `code` field of the `C.malloc`'d error struct
      decides the result, and after a success that field holds whatever the
      memory held. */
  function NewReplicator(config: ReplicatorConfiguration, reg: Registry, resolverKey: string,
                         code: int, domain: int, handle: nat): (r: Construction)
    ensures config.db.None? || config.endpoint.None? || config.auth.None? ==> r == BuildPanicked(reg)
    ensures r.Built? <==>
      config.db.Some? && config.endpoint.Some? && config.auth.Some? &&
      !WritePanics(Map(config.headers)) &&
      Registers(config.pushFilter, config.filterContext, PushCallbackKey) &&
      Registers(config.pullFilter, config.filterContext, PullCallbackKey) &&
      Registers(config.resolver, config.filterContext, resolverKey)
    ensures r.Built? ==> r.config.database == config.db.value && r.config.endpoint == config.endpoint.value
    ensures r.Built? ==> r.config.authenticator == config.auth.value
    ensures r.Built? ==> r.config.replicatorType == config.replicatorType && r.config.continuous == config.continuous
    ensures r.Built? ==> (r.replicator.Success? <==> code == 0)
    ensures r.Built? && r.replicator.Success? ==> r.replicator.value == handle
    ensures r.Built? && r.replicator.Failure? ==> r.replicator.error == EngineError(domain, code)
    ensures r.Built? ==> r.config.headers.Keys == config.headers.Keys
    ensures r.Built? ==> (r.config.channels.None? <==> |config.channels| == 0)
    ensures r.Built? ==> |r.config.documentIDs| == |config.documentIds|
    ensures r.Built? ==> r.config.pushFilter == config.pushFilter.Some?
    ensures r.Built? ==> r.config.pullFilter == config.pullFilter.Some?
    ensures r.Built? ==> r.config.conflictResolver == config.resolver.Some?
    ensures r.Built? ==>
      (r.config.context.Some? <==> config.filterContext.Context? && |config.filterKeys| > 0)
    ensures r.Built? && r.config.context.Some? ==>
      r.config.context.value == DictPtr(config.filterContext, config.filterKeys)
    ensures r.Built? ==>
      r.registry.documentListeners == reg.documentListeners &&
      r.registry.listenerTokens == reg.listenerTokens &&
      r.registry.replicatorListeners == reg.replicatorListeners &&
      r.registry.replicatedDocListeners == reg.replicatedDocListeners
    ensures r.Built? && config.pushFilter.None? ==> r.registry.pushFilters == reg.pushFilters
    ensures r.Built? && config.pullFilter.None? ==> r.registry.pullFilters == reg.pullFilters
    ensures r.Built? && config.resolver.None? ==> r.registry.resolvers == reg.resolvers
  {
    if config.db.None? || config.endpoint.None? || config.auth.None? then BuildPanicked(reg)
    else
      WriteOutcomes(Map(config.headers));
      var headers := Write(Map(config.headers));
      if headers.WritePanicked? then BuildPanicked(reg)
      else
        var ctx := config.filterContext;
        match RegisterUnder(reg.pushFilters, config.pushFilter, ctx, PushCallbackKey)
        case Panicked(_) => BuildPanicked(reg)
        case Returned(push) =>
          var reg1 := reg.(pushFilters := push);
          match RegisterUnder(reg1.pullFilters, config.pullFilter, ctx, PullCallbackKey)
          case Panicked(_) => BuildPanicked(reg1)
          case Returned(pull) =>
            var reg2 := reg1.(pullFilters := pull);
            match RegisterUnder(reg2.resolvers, config.resolver, ctx, resolverKey)
            case Panicked(_) => BuildPanicked(reg2)
            case Returned(resolvers) =>
              var native := NativeConfig(
                config.db.value,
                config.endpoint.value,
                config.replicatorType,
                config.continuous,
                config.auth.value,
                if config.proxy.Some? then Some(NativeProxy(config.proxy.value)) else None,
                CertificateSlice(config.pinnedServerCertificate),
                CertificateSlice(config.trustedRootCertificates),
                headers.slot.fields,
                if |config.channels| > 0 then Some(EncodeStrings(config.channels)) else None,
                EncodeStrings(config.documentIds),
                config.pushFilter.Some?,
                config.pullFilter.Some?,
                config.resolver.Some?,
                if ctx.Context? && |config.filterKeys| > 0 then Some(DictPtr(ctx, config.filterKeys)) else None);
              Built(native, reg2.(resolvers := resolvers),
                if code == 0 then Success(handle) else Failure(EngineError(domain, code)))
  }

  /** A push filter is registered exactly when one is configured, under the
      string the filter context holds at "PUSHCALLBACK"; the same holds for
      the pull filter under "PULLCALLBACK". */
  lemma FiltersRegistered(config: ReplicatorConfiguration, reg: Registry, resolverKey: string,
                          code: int, domain: int, handle: nat)
    requires NewReplicator(config, reg, resolverKey, code, domain, handle).Built?
    ensures var r := NewReplicator(config, reg, resolverKey, code, domain, handle);
      (config.pushFilter.Some? ==>
         var k := StringAt(config.filterContext, PushCallbackKey).value;
         r.registry.pushFilters == reg.pushFilters[k := config.pushFilter.value]) &&
      (config.pullFilter.Some? ==>
         var k := StringAt(config.filterContext, PullCallbackKey).value;
         r.registry.pullFilters == reg.pullFilters[k := config.pullFilter.value]) &&
      (config.resolver.Some? ==>
         var k := StringAt(config.filterContext, resolverKey).value;
         r.registry.resolvers == reg.resolvers[k := config.resolver.value])
  {
    var ctx := config.filterContext;
    var push := RegisterUnder(reg.pushFilters, config.pushFilter, ctx, PushCallbackKey);
    var pull := RegisterUnder(reg.pullFilters, config.pullFilter, ctx, PullCallbackKey);
    var resolvers := RegisterUnder(reg.resolvers, config.resolver, ctx, resolverKey);
    assert push.Returned? && pull.Returned? && resolvers.Returned?;
    assert NewReplicator(config, reg, resolverKey, code, domain, handle).registry ==
      reg.(pushFilters := push.value, pullFilters := pull.value, resolvers := resolvers.value);
  }

  /** Headers of canonical values reach the engine as a dict that decodes
      back to the very same map. */
  lemma HeadersRoundTrip(config: ReplicatorConfiguration, reg: Registry, resolverKey: string,
                         code: int, domain: int, handle: nat)
    requires NewReplicator(config, reg, resolverKey, code, domain, handle).Built?
    requires Canonical(Map(config.headers))
    ensures SlotToGo(DictSlot(NewReplicator(config, reg, resolverKey, code, domain, handle).config.headers))
         == Map(config.headers)
  {
    CanonicalRoundTrip(Map(config.headers));
  }

  /** Channels and document IDs without NUL reach the engine in their
      original order and read back unchanged. */
  lemma StringListsRoundTrip(config: ReplicatorConfiguration, reg: Registry, resolverKey: string,
                             code: int, domain: int, handle: nat)
    requires NewReplicator(config, reg, resolverKey, code, domain, handle).Built?
    requires forall i :: 0 <= i < |config.channels| ==> NulFree(config.channels[i])
    requires forall i :: 0 <= i < |config.documentIds| ==> NulFree(config.documentIds[i])
    ensures var n := NewReplicator(config, reg, resolverKey, code, domain, handle).config;
      (n.channels.Some? ==>
         |n.channels.value| == |config.channels| &&
         forall i :: 0 <= i < |config.channels| ==> SlotToGo(n.channels.value[i]) == Str(config.channels[i])) &&
      (forall i :: 0 <= i < |config.documentIds| ==> SlotToGo(n.documentIDs[i]) == Str(config.documentIds[i]))
  {
  }

  /** The engine hands the filters the context pointer of the configuration,
      which is a Fleece dict and not a Go context: a configured filter is
      never reached through it. */
  lemma FiltersNeverReached(config: ReplicatorConfiguration, reg: Registry, resolverKey: string,
                            code: int, domain: int, handle: nat, push: bool, doc: nat, isDeleted: bool)
    requires NewReplicator(config, reg, resolverKey, code, domain, handle).Built?
    requires NewReplicator(config, reg, resolverKey, code, domain, handle).config.context.Some?
    ensures FilterBridge(NewReplicator(config, reg, resolverKey, code, domain, handle).config.context.value,
                         push, doc, isDeleted).dispatch == NotAContext
  {
  }

  // ---------------------------------------------------------------------------
  // Removing filters

  /** `RemovePushFilterListener`. */
  function RemovePushFilterListener(reg: Registry, key: string): (r: Registry)
    ensures key !in r.pushFilters
    ensures forall k :: k != key ==> (k in r.pushFilters <==> k in reg.pushFilters)
    ensures forall k :: k != key && k in r.pushFilters ==> r.pushFilters[k] == reg.pushFilters[k]
    ensures r.(pushFilters := reg.pushFilters) == reg
  {
    reg.(pushFilters := Delete(reg.pushFilters, key))
  }

  /** `RemovePullFilterListener`. */
  function RemovePullFilterListener(reg: Registry, key: string): (r: Registry)
    ensures key !in r.pullFilters
    ensures forall k :: k != key ==> (k in r.pullFilters <==> k in reg.pullFilters)
    ensures forall k :: k != key && k in r.pullFilters ==> r.pullFilters[k] == reg.pullFilters[k]
    ensures r.(pullFilters := reg.pullFilters) == reg
  {
    reg.(pullFilters := Delete(reg.pullFilters, key))
  }

  /** Removing a push filter just registered by `NewReplicator` restores the
      push registry, except that an earlier filter under the same key is gone
      too; removing a key that is absent changes nothing. */
  lemma RegisterThenRemovePush(config: ReplicatorConfiguration, reg: Registry, resolverKey: string,
                               code: int, domain: int, handle: nat)
    requires NewReplicator(config, reg, resolverKey, code, domain, handle).Built?
    requires config.pushFilter.Some?
    ensures var k := StringAt(config.filterContext, PushCallbackKey).value;
      RemovePushFilterListener(NewReplicator(config, reg, resolverKey, code, domain, handle).registry, k).pushFilters
        == reg.pushFilters - {k}
    ensures forall k :: k !in reg.pushFilters ==> RemovePushFilterListener(reg, k) == reg
  {
  }

  // ---------------------------------------------------------------------------
  // Replicator listeners

  /** The result of a registration returning a token: the token or error,
      the registries afterwards, and the pointer handed to the engine (none
      when the engine was not called). */
  datatype Registration = Registration(token: Result<ListenerToken>, registry: Registry, carried: Option<Carried>)

  /** `Replicator.AddChangeListener`: with a string under "UUID", the
      listener is stored under it, the engine is handed a Fleece dict built
      from the context and the listed keys, and the token carries the key,
      the engine's token and the kind name; otherwise an error and no change. */
  function AddChangeListener(reg: Registry, listener: Callback, ctx: GoContext, ctxKeys: seq<string>,
                             handle: nat): (r: Outcome<Registration>)
    requires listener.kind == ReplicatorChangeListener
    ensures r.Panicked? <==> ctx.NilContext?
    ensures r.Returned? ==> (r.value.token.Success? <==> Uuid(ctx).value.Some?)
    ensures r.Returned? && r.value.token.Failure? ==>
      r.value == Registration(Failure(NoUuidInContext), reg, None)
    ensures r.Returned? && r.value.token.Success? ==>
      var key := Uuid(ctx).value.value;
      ctx.values[StrKey(UuidKey)] == CtxString(key) &&
      r.value.token.value == Token(key, handle, "ReplicatorChangeListener") &&
      r.value.registry == reg.(replicatorListeners := reg.replicatorListeners[key := listener]) &&
      r.value.carried == Some(DictPtr(ctx, ctxKeys))
  {
    match Uuid(ctx)
    case Panicked(p) => Panicked(p)
    case Returned(None) => Returned(Registration(Failure(NoUuidInContext), reg, None))
    case Returned(Some(key)) =>
      Returned(Registration(Success(Token(key, handle, "ReplicatorChangeListener")),
        reg.(replicatorListeners := reg.replicatorListeners[key := listener]),
        Some(DictPtr(ctx, ctxKeys))))
  }

  /** `Replicator.AddDocumentListener`: the same, for replicated-document listeners. */
  function AddDocumentListener(reg: Registry, listener: Callback, ctx: GoContext, ctxKeys: seq<string>,
                               handle: nat): (r: Outcome<Registration>)
    requires listener.kind == ReplicatedDocumentListener
    ensures r.Panicked? <==> ctx.NilContext?
    ensures r.Returned? ==> (r.value.token.Success? <==> Uuid(ctx).value.Some?)
    ensures r.Returned? && r.value.token.Failure? ==>
      r.value == Registration(Failure(NoUuidInContext), reg, None)
    ensures r.Returned? && r.value.token.Success? ==>
      var key := Uuid(ctx).value.value;
      ctx.values[StrKey(UuidKey)] == CtxString(key) &&
      r.value.token.value == Token(key, handle, "ReplicatedDocumentListener") &&
      r.value.registry == reg.(replicatedDocListeners := reg.replicatedDocListeners[key := listener]) &&
      r.value.carried == Some(DictPtr(ctx, ctxKeys))
  {
    match Uuid(ctx)
    case Panicked(p) => Panicked(p)
    case Returned(None) => Returned(Registration(Failure(NoUuidInContext), reg, None))
    case Returned(Some(key)) =>
      Returned(Registration(Success(Token(key, handle, "ReplicatedDocumentListener")),
        reg.(replicatedDocListeners := reg.replicatedDocListeners[key := listener]),
        Some(DictPtr(ctx, ctxKeys))))
  }

  /** The token of a successful registration finds the listener in its
      registry, but the engine's later calls carry a Fleece dict where the
      trampolines expect a Go context, so the listener is never invoked. */
  lemma ReplicatorListenersNeverReached(reg: Registry, change: Callback, replicated: Callback,
                                        ctx: GoContext, ctxKeys: seq<string>, handle: nat,
                                        replicator: nat, status: NativeStatus, isPush: bool,
                                        docs: seq<NativeReplicatedDoc>)
    requires change.kind == ReplicatorChangeListener && replicated.kind == ReplicatedDocumentListener
    requires ctx.Context? && Uuid(ctx).value.Some?
    requires |docs| > 0
    ensures var r := AddChangeListener(reg, change, ctx, ctxKeys, handle).value;
      r.registry.replicatorListeners[r.token.value.key] == change &&
      ReplicatorChangeBridge(r.carried.value, replicator, status) == NotAContext
    ensures var r := AddDocumentListener(reg, replicated, ctx, ctxKeys, handle).value;
      r.registry.replicatedDocListeners[r.token.value.key] == replicated &&
      ReplicatedDocumentBridge(r.carried.value, replicator, isPush, ToUint32(|docs|), docs) == NotAContext
  {
  }

  // ---------------------------------------------------------------------------
  // Status

  /** `Replicator.Status`: the engine's status copied field for field, so
      that a well-formed engine status can be rebuilt from it. It is the same
      copy the change listener receives. */
  function CurrentStatus(native: NativeStatus): (r: ReplicatorStatus)
    ensures r.activity == native.activity && r.progress.documentCount == native.documentCount
    ensures ValidNativeError(native.error) ==> r.err.domain < 0x100 && StatusSource(r) == native
  {
    if ValidNativeError(native.error) then
      ConvertStatusLossless(native);
      ConvertStatus(native)
    else ConvertStatus(native)
  }
}
