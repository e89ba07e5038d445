/**
 The query-level logic of query.go: binding parameters through the writer
 and reading them back through the property-map reader, reading result
 columns, listing index names, converting an index spec, and registering a
 live-query listener.
 */
module Query {
  import opened Common
  import opened Values
  import opened ValueBridge
  import opened Contexts
  import opened Bridge

  // ---------------------------------------------------------------------------
  // SetParameters / GetParameters

  /** What `SetParameters` leaves behind: the parameter dict it built (its
      error result is always nil), or a panic from the writer. */
  datatype Binding = Bound(bindings: map<string, Slot>) | BindPanicked

  /** `SetParameters`: every entry written under its own key into a fresh
      dict; an entry the writer refuses stays unset and is not reported. */
  function SetParameters(params: map<string, GoValue>): (r: Binding)
    ensures r.BindPanicked? <==> exists k :: k in params && WritePanics(params[k])
    ensures r.Bound? ==> r.bindings.Keys == params.Keys
    ensures r.Bound? ==> forall k :: k in params && !Encodable(params[k]) ==> r.bindings[k] == Unset
    ensures r.Bound? ==> Write(Map(params)) == Stored(DictSlot(r.bindings))
  {
    WriteOutcomesAll(params);
    if exists k :: k in params && Write(params[k]).WritePanicked? then BindPanicked
    else Bound(map k | k in params :: SlotOf(Write(params[k])))
  }

  /** `GetParameters`: the property map of the engine's current bindings;
      its error result is always nil. */
  function GetParameters(current: seq<Entry>): (m: map<string, GoValue>)
    requires AllReadable(current)
  {
    PropMap(current)
  }

  /** How the engine holds a scalar slot: the value a later read of the
      parameter dict finds for it. A string is held with a NUL after its
      bytes, which `C.GoString` needs to stop at its end. */
  predicate Holds(fl: FLValue, s: Slot) {
    match s
    case BoolSlot(b) => fl == Boolean(b)
    case StringSlot(t) => fl.String? && fl.chars == t && |fl.tail| > 0 && fl.tail[0] == NUL
    case IntSlot(i) => fl.Number? && fl.num.isInteger && fl.num.asInt == i
    case _ => false
  }

  /** The parameter values that come back unchanged. */
  predicate ScalarParameter(v: GoValue) {
    v.Bool? || (v.Str? && NulFree(v.s)) || (v.Signed? && v.skind == Int64)
  }

  predicate DistinctKeys(es: seq<Entry>) {
    forall i, j :: 0 <= i < j < |es| ==> es[i].key != es[j].key
  }

  /** A boolean, NUL-free string or `int64` parameter comes back unchanged:
      once the engine holds the bound slot under its key, `GetParameters`
      returns the value that was set. */
  lemma SetThenGetParameters(params: map<string, GoValue>, current: seq<Entry>, k: string, i: nat)
    requires SetParameters(params).Bound?
    requires k in params && ScalarParameter(params[k])
    requires AllReadable(current) && DistinctKeys(current)
    requires i < |current| && current[i].key == k
    requires Holds(current[i].value, SetParameters(params).bindings[k])
    ensures k in GetParameters(current)
    ensures GetParameters(current)[k] == params[k]
  {
    var v := params[k];
    assert Read(current[i].value) == Success(v) by {
      if v.Str? {
        CStringIdentity(v.s);
        CStringStopsAtNul(v.s, current[i].value.tail);
      }
    }
    assert LastConverting(current, i);
    PropMapValue(current, i);
  }

  /** What `SetParameters` as written hands `CBLQuery_SetParameters`: the
      dict is filled as above, but the engine is given
      `FLMutableDict_GetSource` of it, and a dict made by `FLMutableDict_New`
      has no source, so the engine receives NULL in place of the bindings.
      `SetParameters` is the evidently intended behaviour. */
  datatype Handover = Handed(dict: Option<map<string, Slot>>) | HandPanicked

  function SetParametersAsWritten(params: map<string, GoValue>): (r: Handover)
    ensures r.HandPanicked? <==> exists k :: k in params && WritePanics(params[k])
    ensures r.Handed? ==> r.dict.None?
  {
    match SetParameters(params)
    case BindPanicked => HandPanicked
    case Bound(_) => Handed(None)
  }

  /** A string parameter shows the difference. The intended binding holds
      it, and an engine holding that binding gives it back; as written the
      engine is handed nothing, and an engine holding no bindings gives back
      no parameter. */
  lemma ParameterLost()
    ensures SetParameters(map["x" := Str("x")]) == Bound(map["x" := StringSlot("x")])
    ensures GetParameters([Entry("x", String("x", [NUL]))]) == map["x" := Str("x")]
    ensures SetParametersAsWritten(map["x" := Str("x")]) == Handed(None)
    ensures "x" !in GetParameters([])
  {
    var params := map["x" := Str("x")];
    assert "x" in params;
    SetThenGetParameters(params, [Entry("x", String("x", [NUL]))], "x", 0);
    PropMapKeys([Entry("x", String("x", [NUL]))], "x");
    forall k | k in GetParameters([Entry("x", String("x", [NUL]))])
      ensures k == "x"
    {
      PropMapKeys([Entry("x", String("x", [NUL]))], k);
    }
  }

  // ---------------------------------------------------------------------------
  // Result columns

  /** A missing column is a NULL `FLValue`, whose type reads as undefined. */
  const Missing: FLValue := Undefined

  /** `CBLResultSet_ValueAtIndex`, with the index truncated to C `unsigned`. */
  function ColumnAt(row: seq<FLValue>, index: UInt64): FLValue {
    var i := ToUint32(index);
    if i < |row| then row[i] else Missing
  }

  /** `CBLResultSet_ValueForKey`, with the key passed through `C.CString`. */
  function ColumnNamed(row: seq<Entry>, key: string): FLValue {
    var v := Lookup(row, CString(key));
    if v.Some? then v.value else Missing
  }

  /** The result of `ValueAtIndex` / `ValueForKey` as written: the value the
      reader returned is passed on only when the reader also reported an
      error, and the reader returns nil with every error; a successful
      conversion is discarded. */
  function ColumnValueAsWritten(v: FLValue): (r: GoValue)
    requires Readable(v)
    ensures r == Nil
  {
    var (value, err) := ReadPair(v);
    if err.Some? then value else Nil
  }

  /** The evidently intended result: the converted value, or nil when the
      conversion fails. */
  function ColumnValue(v: FLValue): (r: GoValue)
    requires Readable(v)
    ensures Read(v).Success? ==> r == Read(v).value
    ensures Read(v).Failure? ==> r == Nil
    ensures r == Nil <==> v.Undefined? || v.Unrecognized? || v.Null? || (v.Array? && |v.items| == 0)
  {
    var (value, err) := ReadPair(v);
    if err.None? then value else Nil
  }

  function ValueAtIndex(row: seq<FLValue>, index: UInt64): (r: GoValue)
    requires forall i :: 0 <= i < |row| ==> Readable(row[i])
    ensures r == Nil
  {
    ColumnValueAsWritten(ColumnAt(row, index))
  }

  function ValueAtIndexCorrected(row: seq<FLValue>, index: UInt64): (r: GoValue)
    requires forall i :: 0 <= i < |row| ==> Readable(row[i])
    ensures ToUint32(index) < |row| && Read(row[ToUint32(index)]).Success? ==>
      r == Read(row[ToUint32(index)]).value
    ensures ToUint32(index) >= |row| ==> r == Nil
  {
    ColumnValue(ColumnAt(row, index))
  }

  function ValueForKey(row: seq<Entry>, key: string): (r: GoValue)
    requires AllReadable(row)
    ensures r == Nil
  {
    ColumnValueAsWritten(ColumnNamed(row, key))
  }

  function ValueForKeyCorrected(row: seq<Entry>, key: string): (r: GoValue)
    requires AllReadable(row)
    ensures Lookup(row, CString(key)).None? ==> r == Nil
    ensures Lookup(row, CString(key)).Some? && Read(Lookup(row, CString(key)).value).Success? ==>
      r == Read(Lookup(row, CString(key)).value).value
  {
    ColumnValue(ColumnNamed(row, key))
  }

  /** A string column shows the difference: the corrected reads return it,
      the code as written returns nil, by index and by name alike. */
  lemma ColumnValueDiscarded()
    ensures ValueAtIndexCorrected([String("x", [NUL])], 0) == Str("x")
    ensures ValueAtIndex([String("x", [NUL])], 0) == Nil
    ensures ValueForKeyCorrected([Entry("x", String("x", [NUL]))], "x") == Str("x")
    ensures ValueForKey([Entry("x", String("x", [NUL]))], "x") == Nil
  {
    StringRead("x", [NUL]);
  }

  // ---------------------------------------------------------------------------
  // IndexNames

  /** `FLValue_AsString` read with `C.GoStringN`: a string's bytes in full,
      and the empty string for any other value. */
  function AsString(v: FLValue): string {
    if v.String? then v.chars else ""
  }

  /** `IndexNames`: a slice sized by the iterator's count, filled in
      iteration order. The count is a `uint32_t`, so an engine array holds
      fewer than 2^32 items and the `uint32` conversion keeps it whole. */
  method IndexNames(names: seq<FLValue>) returns (r: seq<string>)
    requires |names| < 0x1_0000_0000
    ensures |r| == |names|
    ensures forall i :: 0 <= i < |names| ==> r[i] == AsString(names[i])
  {
    var size := ToUint32(|names|);
    var indexes: seq<string> := seq(size, _ => "");
    var i := 0;
    while i < |names|
      invariant 0 <= i <= |names| == size
      invariant |indexes| == size
      invariant forall j :: 0 <= j < i ==> indexes[j] == AsString(names[j])
    {
      indexes := indexes[i := AsString(names[i])];
      i := i + 1;
    }
    r := indexes;
  }

  // ---------------------------------------------------------------------------
  // goIndexSpecToCBLIndexSpec

  datatype IndexSpec = IndexSpec(indexType: UInt32, keyExpressionsJson: string, ignoreAccents: bool, language: string)

  /** `goIndexSpecToCBLIndexSpec`: the type and flag copied, both strings
      passed through `C.CString`. */
  function ToNativeIndexSpec(spec: IndexSpec): (n: IndexSpec)
    ensures n.indexType == spec.indexType && n.ignoreAccents == spec.ignoreAccents
    ensures n.keyExpressionsJson <= spec.keyExpressionsJson && NulFree(n.keyExpressionsJson)
    ensures n.language <= spec.language && NulFree(n.language)
  {
    IndexSpec(spec.indexType, CString(spec.keyExpressionsJson), spec.ignoreAccents, CString(spec.language))
  }

  /** The conversion preserves a spec exactly when its strings have no NUL. */
  lemma IndexSpecPreserved(spec: IndexSpec)
    ensures ToNativeIndexSpec(spec) == spec <==> NulFree(spec.keyExpressionsJson) && NulFree(spec.language)
  {
  }

  // ---------------------------------------------------------------------------
  // AddChangeListener

  /** `Query.AddChangeListener`: the listener is stored in the context under
      "CALLBACK" and the engine gets the extended context. */
  function AddChangeListener(listener: Callback, ctx: GoContext, token: nat): (r: Outcome<(ListenerToken, Carried)>)
    requires listener.kind == QueryChangeListener
    ensures r.Panicked? <==> ctx.NilContext?
    ensures r.Returned? ==> r.value.0 == BareToken(token)
    ensures r.Returned? ==> r.value.1.ContextPtr? && r.value.1.ctx.Context?
    ensures r.Returned? ==> r.value.1.ctx.values == ctx.values[StrKey(CallbackKey) := CtxFunc(listener)]
  {
    match WithValue(ctx, StrKey(CallbackKey), CtxFunc(listener))
    case Panicked(p) => Panicked(p)
    case Returned(c) => Returned((BareToken(token), ContextPtr(c)))
  }

  /** Every later result change reaches exactly the registered listener. */
  lemma QueryListenerDispatch(listener: Callback, ctx: GoContext, token: nat, query: nat)
    requires listener.kind == QueryChangeListener
    requires ctx.Context?
    ensures AddChangeListener(listener, ctx, token).Returned?
    ensures
      var c := AddChangeListener(listener, ctx, token).value.1;
      QueryListenerBridge(c, query) == Invoked(listener, c.ctx, QueryChanged(query))
  {
  }
}
