/**
 The database-level logic of database.go: the open flags, the copy of the
 encryption key into the engine's fixed 32-byte field, the mapping of
 engine error codes to results, the configuration read-back, and the two
 listener registrations that stash the callback in the context.

 The `code` parameters are the `code` field of a `C.malloc`'d `CBLError`
 after the call (unlike `Save`, whose error struct is a zeroed Go value): the engine's code on failure, and whatever the memory held on
 success, so a success can read as a failure.
 */
module Database {
  import opened Common
  import opened Contexts
  import opened Bridge

  // ---------------------------------------------------------------------------
  // DatabaseFlags

  /** Go's `^` on two `uint32` values: bitwise exclusive or. */
  function Xor(a: UInt32, b: UInt32): UInt32 {
    ((a as bv32) ^ (b as bv32)) as int
  }

  /** Go's `&` on two `uint32` values. */
  function And(a: UInt32, b: UInt32): UInt32 {
    ((a as bv32) & (b as bv32)) as int
  }

  /** The flag constants as written: `2 ^ iota`, which is an exclusive or
      and not a power, for iota = 0, 1, 2. */
  function FlagAsWritten(iota: nat): (f: UInt32)
    requires iota < 3
  {
    Xor(2, iota)
  }

  /** The flag constants as evidently intended: one bit each, `1 << iota`. */
  function FlagCorrected(iota: nat): (f: UInt32)
    requires iota < 3
  {
    if iota == 0 then 1 else if iota == 1 then 2 else 4
  }

  const DatabaseCreate: UInt32 := FlagCorrected(0)
  const DatabaseReadOnly: UInt32 := FlagCorrected(1)
  const DatabaseNoUpgrade: UInt32 := FlagCorrected(2)

  /** As written, Create = 2, ReadOnly = 3 and NoUpgrade = 0: ReadOnly
      contains the Create bit and NoUpgrade has no bit at all, so it can be
      neither set nor checked. */
  lemma FlagsAsWrittenOverlap()
    ensures FlagAsWritten(0) == 2 && FlagAsWritten(1) == 3 && FlagAsWritten(2) == 0
    ensures And(FlagAsWritten(1), FlagAsWritten(0)) == FlagAsWritten(0)
    ensures forall f: UInt32 :: And(f, FlagAsWritten(2)) == 0
  {
  }

  /** The corrected flags are three distinct single bits: each is nonzero
      and no two share a bit. */
  lemma FlagsCorrectedDisjoint()
    ensures DatabaseCreate != 0 && DatabaseReadOnly != 0 && DatabaseNoUpgrade != 0
    ensures And(DatabaseCreate, DatabaseReadOnly) == 0
    ensures And(DatabaseCreate, DatabaseNoUpgrade) == 0
    ensures And(DatabaseReadOnly, DatabaseNoUpgrade) == 0
  {
  }

  // ---------------------------------------------------------------------------
  // Configuration and the encryption key

  datatype EncryptionKey = EncryptionKey(algorithm: UInt32, bytes: seq<byte>)

  datatype DatabaseConfiguration = DatabaseConfiguration(directory: string, flags: UInt32, key: EncryptionKey)

  /** `CBLDatabaseConfiguration`: the key is a fixed array of 32 bytes. */
  datatype NativeConfig = NativeConfig(directory: string, flags: UInt32, algorithm: UInt32, keyData: seq<byte>)

  const KeySize: nat := 32

  /** The loop `for i := 0; i < len(bytes); i++ { key_data[i] = bytes[i] }`
      into a zeroed `[32]C.uint8_t`: the key is copied index for index and
      the rest stays zero; a key longer than 32 bytes indexes past the end
      of the array and panics. */
  method CopyKey(bytes: seq<byte>) returns (r: Outcome<seq<byte>>)
    ensures r.Panicked? <==> |bytes| > KeySize
    ensures r.Panicked? ==> r.reason == IndexOutOfRange
    ensures r.Returned? ==> |r.value| == KeySize && r.value[..|bytes|] == bytes
    ensures r.Returned? ==> forall i :: |bytes| <= i < KeySize ==> r.value[i] == 0
  {
    var data: seq<byte> := seq(KeySize, _ => 0);
    var i := 0;
    while i < |bytes|
      invariant 0 <= i <= |bytes| && i <= KeySize
      invariant |data| == KeySize
      invariant forall j :: 0 <= j < i ==> data[j] == bytes[j]
      invariant forall j :: i <= j < KeySize ==> data[j] == 0
    {
      if i >= KeySize {
        return Panicked(IndexOutOfRange);
      }
      data := data[i := bytes[i]];
      i := i + 1;
    }
    if |bytes| > KeySize {
      return Panicked(IndexOutOfRange);
    }
    r := Returned(data);
  }

  /** The native configuration `Open` and `CopyDatabase` build. */
  method NativeConfigOf(config: DatabaseConfiguration) returns (r: Outcome<NativeConfig>)
    ensures r.Panicked? <==> |config.key.bytes| > KeySize
    ensures r.Returned? ==> r.value.directory == CString(config.directory)
    ensures r.Returned? ==> r.value.flags == config.flags && r.value.algorithm == config.key.algorithm
    ensures r.Returned? ==> |r.value.keyData| == KeySize && r.value.keyData[..|config.key.bytes|] == config.key.bytes
  {
    var key := CopyKey(config.key.bytes);
    if key.Panicked? {
      return Panicked(key.reason);
    }
    r := Returned(NativeConfig(CString(config.directory), config.flags, config.key.algorithm, key.value));
  }

  /** An open database: the engine handle, the native configuration it was
      opened with, and its name. */
  datatype OpenDatabase = OpenDatabase(handle: nat, config: NativeConfig, name: string)

  /** `Open`. A nil configuration pointer panics; the engine's error code
      decides between the database and a formatted internal error. */
  method Open(name: string, config: Option<DatabaseConfiguration>, code: int, domain: int, handle: nat)
    returns (r: Outcome<Result<OpenDatabase>>)
    ensures config.None? ==> r == Panicked(NilDereference)
    ensures config.Some? ==> (r.Panicked? <==> |config.value.key.bytes| > KeySize)
    ensures r.Returned? ==> (r.value.Success? <==> code == 0)
    ensures r.Returned? && code != 0 ==> r.value == Failure(EngineError(domain, code))
    ensures r.Returned? && code == 0 ==>
      r.value.value.handle == handle && r.value.value.name == name &&
      r.value.value.config.directory == CString(config.value.directory) &&
      r.value.value.config.flags == config.value.flags
  {
    if config.None? {
      return Panicked(NilDereference);
    }
    var native := NativeConfigOf(config.value);
    if native.Panicked? {
      return Panicked(native.reason);
    }
    if code == 0 {
      r := Returned(Success(OpenDatabase(handle, native.value, name)));
    } else {
      r := Returned(Failure(EngineError(domain, code)));
    }
  }

  /** `CopyDatabase`: the same key copy, then the engine's result is returned. */
  method CopyDatabase(fromPath: string, toName: string, config: Option<DatabaseConfiguration>, result: bool)
    returns (r: Outcome<bool>)
    ensures config.None? ==> r == Panicked(NilDereference)
    ensures config.Some? ==> (r.Panicked? <==> |config.value.key.bytes| > KeySize)
    ensures r.Returned? ==> r.value == result
  {
    if config.None? {
      return Panicked(NilDereference);
    }
    var native := NativeConfigOf(config.value);
    if native.Panicked? {
      return Panicked(native.reason);
    }
    r := Returned(result);
  }

  /** `DatabaseConfig`: directory, flags and algorithm are read back from the
      engine's configuration, but the key bytes are always empty. */
  function DatabaseConfig(native: NativeConfig): (c: DatabaseConfiguration)
    ensures c.directory == CString(native.directory)
    ensures c.flags == native.flags && c.key.algorithm == native.algorithm
    ensures c.key.bytes == []
  {
    DatabaseConfiguration(CString(native.directory), native.flags, EncryptionKey(native.algorithm, []))
  }

  /** Opening a database and reading its configuration back returns the
      given configuration when its directory has no NUL and it has no key;
      a non-empty key never comes back. */
  lemma ConfigReadBack(config: DatabaseConfiguration, native: NativeConfig)
    requires native.directory == CString(config.directory)
    requires native.flags == config.flags && native.algorithm == config.key.algorithm
    ensures DatabaseConfig(native) == config <==> NulFree(config.directory) && config.key.bytes == []
  {
  }

  // ---------------------------------------------------------------------------
  // Engine error codes

  /** `Delete`, `Compact`, `BeginBatch`, `EndBatch`: the engine's boolean
      result, or false whenever the error code is nonzero. */
  function BoolUnlessError(code: int, result: bool): (r: bool)
    ensures r <==> code == 0 && result
  {
    if code == 0 then result else false
  }

  /** `PurgeExpiredDocuments`: the engine's count, or -1 on error. */
  function PurgeResult(code: int, count: Int64): (r: Int64)
    ensures code == 0 ==> r == count
    ensures code != 0 ==> r == -1
  {
    if code == 0 then count else -1
  }

  // ---------------------------------------------------------------------------
  // Listener registration

  /** A registration that stashes the callback in the context: the token
      returned and the context pointer handed to the engine. */
  datatype Added = Added(token: ListenerToken, carried: Carried)

  /** `AddDatabaseChangeListener`: the listener is stored in the context
      under "CALLBACK" and the engine gets the extended context. */
  function AddDatabaseChangeListener(listener: Callback, ctx: GoContext, token: nat): (r: Outcome<Added>)
    requires listener.kind == DatabaseChangeListener
    ensures r.Panicked? <==> ctx.NilContext?
    ensures r.Returned? ==> r.value.token == BareToken(token)
    ensures r.Returned? ==> r.value.carried.ContextPtr? && r.value.carried.ctx.Context?
    ensures r.Returned? ==> r.value.carried.ctx.values == ctx.values[StrKey(CallbackKey) := CtxFunc(listener)]
  {
    match WithValue(ctx, StrKey(CallbackKey), CtxFunc(listener))
    case Panicked(p) => Panicked(p)
    case Returned(c) => Returned(Added(BareToken(token), ContextPtr(c)))
  }

  /** Every later database change reaches exactly the registered listener,
      with the extended context. */
  lemma DatabaseListenerDispatch(listener: Callback, ctx: GoContext, token: nat, db: nat, ids: seq<string>)
    requires listener.kind == DatabaseChangeListener
    requires ctx.Context?
    ensures AddDatabaseChangeListener(listener, ctx, token).Returned?
    ensures
      var c := AddDatabaseChangeListener(listener, ctx, token).value.carried;
      Deliver(c, CallbackKey, DatabaseChangeListener, DatabaseChanged(db, ids)) ==
        Invoked(listener, c.ctx, DatabaseChanged(db, ids))
  {
  }

  /** `DatabaseBufferNotifications` as written: the parameter `callback`
      shadows the key declared at package level, so the function value itself is used
      as the context key. */
  function BufferNotifications(cb: Callback, ctx: GoContext): (r: Outcome<Carried>)
    requires cb.kind == NotificationsReadyCallback
  {
    match WithValue(ctx, FuncKey(cb), CtxFunc(cb))
    case Panicked(p) => Panicked(p)
    case Returned(c) => Returned(ContextPtr(c))
  }

  /** Go refuses a function value as a context key, so buffering
      notifications always panics and the engine is never told. */
  lemma BufferNotificationsPanics(cb: Callback, ctx: GoContext)
    requires cb.kind == NotificationsReadyCallback
    ensures BufferNotifications(cb, ctx).Panicked?
    ensures ctx.Context? ==> BufferNotifications(cb, ctx) == Panicked(NonComparableKey)
  {
  }

  /** `DatabaseBufferNotifications` with the callback stored under "CALLBACK". */
  function BufferNotificationsCorrected(cb: Callback, ctx: GoContext): (r: Outcome<Carried>)
    requires cb.kind == NotificationsReadyCallback
    ensures r.Panicked? <==> ctx.NilContext?
    ensures r.Returned? ==>
      r.value.ContextPtr? && r.value.ctx.Context? &&
      r.value.ctx.values == ctx.values[StrKey(CallbackKey) := CtxFunc(cb)]
  {
    match WithValue(ctx, StrKey(CallbackKey), CtxFunc(cb))
    case Panicked(p) => Panicked(p)
    case Returned(c) => Returned(ContextPtr(c))
  }

  /** With the corrected key, the notification trampoline reaches the
      callback, which receives whatever database value `stray` the
      trampoline's missing second argument holds. */
  lemma BufferNotificationsCorrectedDispatch(cb: Callback, ctx: GoContext, stray: nat)
    requires cb.kind == NotificationsReadyCallback
    requires ctx.Context?
    ensures BufferNotificationsCorrected(cb, ctx).Returned?
    ensures
      var c := BufferNotificationsCorrected(cb, ctx).value;
      NotificationBridge(c, stray) == Invoked(cb, c.ctx, NotificationsReady(stray))
  {
  }
}
