/**
 The value bridge: the engine-to-host reader `getFLValueToGoValue` with its
 property-map helper `getKeyValuePropMap`, and the host-to-engine writer
 `storeGoValueInSlot`. document.go and bridge.go each carry a copy of both;
 the readers are identical and the writers differ only in native release
 calls (bridge.go releases each nested array or dict after attaching it),
 which have no counterpart at this level, so each is modelled once.
 */
module ValueBridge {
  import opened Common
  import opened Values

  // ===========================================================================
  // Reader

  /** The Go number the reader builds, testing the engine's flags in order:
      integer, then unsigned, then double, and single-precision otherwise. */
  function ReadNumber(n: FLNumber): (g: GoValue)
    ensures n.isInteger ==> g == Signed(Int64, n.asInt)
    ensures !n.isInteger && n.isUnsigned ==> g == Unsigned(Uint64, n.asUnsigned)
    ensures !n.isInteger && !n.isUnsigned && n.isDouble ==> g == Float64(n.asDouble)
    ensures !n.isInteger && !n.isUnsigned && !n.isDouble ==> g == Float32(n.asFloat)
  {
    if n.isInteger then Signed(Int64, n.asInt)
    else if n.isUnsigned then Unsigned(Uint64, n.asUnsigned)
    else if n.isDouble then Float64(n.asDouble)
    else Float32(n.asFloat)
  }

  /** Converts an engine value to a Go value. `Undefined` is an empty `case`
      that does not fall through, so it reaches the trailing
      `ErrInvalidCBLType`, as does any unknown tag. A string goes through
      `C.GoString`, which is given its start but not its length: it reads
      on into the memory after the string until the first NUL. A non-empty array becomes the
      raw bytes at its address, as many as it has items; an empty one is nil.
      A blob-marked dict becomes a Blob; any other dict becomes a map filled
      from a deep iteration, dropping entries whose conversion fails. */
  function Read(v: FLValue): (r: Result<GoValue>)
    requires Readable(v)
    ensures r.Failure? <==> v.Undefined? || v.Unrecognized?
    ensures r.Failure? ==> r.error == InvalidCBLType
    ensures v.Null? ==> r == Success(Nil)
    ensures r.Success? ==> !r.value.List?
    ensures v.String? ==> r.Success? && r.value.Str? && r.value.s <= v.chars + v.tail && NulFree(r.value.s)
    ensures v.Array? ==> r.Success? && (r.value.Nil? <==> |v.items| == 0)
    ensures v.Array? && |v.items| > 0 ==> r.value.Bytes? && |r.value.data| == |v.items|
    ensures v.Dict? ==> r.Success? && (r.value.BlobRef? <==> IsBlob(v.entries))
    ensures v.Dict? && !IsBlob(v.entries) ==> r.value.Map?
    decreases Size(v), 1
  {
    match v
    case Undefined => Failure(InvalidCBLType)
    case Null => Success(Nil)
    case Boolean(b) => Success(Bool(b))
    case Number(n) => Success(ReadNumber(n))
    case String(chars, tail) => Success(Str(CString(chars + tail)))
    case Data(data) => Success(Bytes(data))
    case Array(items, image) =>
      if |items| == 0 then Success(Nil) else Success(Bytes(image[..|items|]))
    case Dict(entries) =>
      if IsBlob(entries) then
        EntriesSmaller(entries);
        var b := GetBlob(entries, Size(v));
        if b.Success? then Success(BlobRef(b.value)) else Failure(ProblemGettingBlobWithData)
      else
        Success(Map(Collect(DeepEntries(v), Size(v))))
    case Unrecognized(_) => Failure(InvalidCBLType)
  }

  /** A string is read exactly up to its first NUL when it has one, or when
      the memory after it starts with a NUL; otherwise the read runs past its
      end, and the bytes that follow are appended. */
  lemma StringRead(chars: string, tail: string)
    ensures !NulFree(chars) || (|tail| > 0 && tail[0] == NUL) ==>
      Read(String(chars, tail)) == Success(Str(CString(chars)))
    ensures NulFree(chars) ==> chars <= Read(String(chars, tail)).value.s
  {
    if !NulFree(chars) || (|tail| > 0 && tail[0] == NUL) {
      CStringStopsAtNul(chars, tail);
    }
  }

  /** The `(interface{}, error)` pair `getFLValueToGoValue` returns, by
      return statement: an undefined value reaches the `return nil,
      ErrInvalidCBLType` after the switch, an unknown tag the one in
      `default`; every other case returns its value with a nil error (the
      `ErrProblemGettingBlobWithData` return is unreachable, see `GetBlob`). */
  function ReadPair(v: FLValue): (r: (GoValue, Option<CblError>))
    requires Readable(v)
    ensures r.1.None? <==> Read(v).Success?
    ensures r.1.None? ==> r.0 == Read(v).value
    ensures r.1.Some? ==> r.1.value == Read(v).error
  {
    match v
    case Undefined => (Nil, Some(InvalidCBLType))
    case Unrecognized(_) => (Nil, Some(InvalidCBLType))
    case _ => (Read(v).value, None)
  }

  /** `getBlob` on a blob-marked dict: the blob's metadata is the dict itself,
      converted by `getKeyValuePropMap`, whose error result is always nil, so
      the `ErrProblemGettingBlobWithData` branch is never taken. */
  function GetBlob(entries: seq<Entry>, bound: nat): (r: Result<Blob>)
    requires forall i :: 0 <= i < |entries| ==> Size(entries[i].value) < bound
    requires AllReadable(entries)
    ensures r.Success?
    decreases bound, 0, |entries| + 1
  {
    Success(Blob(Collect(entries, bound)))
  }

  /** The map a property-map loop builds from `es`, visited in order: an entry
      whose value converts is stored under its key (a later entry overwrites
      an earlier one with the same key); an entry whose conversion fails is
      skipped. `bound` only serves termination. */
  function Collect(es: seq<Entry>, bound: nat): (m: map<string, GoValue>)
    requires forall i :: 0 <= i < |es| ==> Size(es[i].value) < bound
    requires AllReadable(es)
    decreases bound, 0, |es|
  {
    if |es| == 0 then map[]
    else
      var last := es[|es| - 1];
      var m := Collect(es[..|es| - 1], bound);
      var r := Read(last.value);
      if r.Success? then m[last.key := r.value] else m
  }

  /** A key is in the collected map exactly when some entry with that key converts. */
  lemma {:induction false} CollectKeys(es: seq<Entry>, bound: nat, k: string)
    requires forall i :: 0 <= i < |es| ==> Size(es[i].value) < bound
    requires AllReadable(es)
    ensures k in Collect(es, bound) <==>
      exists i :: 0 <= i < |es| && es[i].key == k && Read(es[i].value).Success?
    decreases |es|
  {
    if |es| > 0 {
      var init := es[..|es| - 1];
      CollectKeys(init, bound, k);
      assert forall i :: 0 <= i < |init| ==> init[i] == es[i];
    }
  }

  /** Entry `i` converts and no later entry with the same key does. */
  predicate LastConverting(es: seq<Entry>, i: nat)
    requires AllReadable(es)
    requires i < |es|
  {
    Read(es[i].value).Success? &&
    forall j :: i < j < |es| && es[j].key == es[i].key ==> Read(es[j].value).Failure?
  }

  /** An entry that converts and is not followed by a converting entry with
      the same key decides the value stored under its key. */
  lemma {:induction false} CollectValue(es: seq<Entry>, bound: nat, i: nat)
    requires forall i :: 0 <= i < |es| ==> Size(es[i].value) < bound
    requires AllReadable(es)
    requires i < |es| && LastConverting(es, i)
    ensures es[i].key in Collect(es, bound)
    ensures Collect(es, bound)[es[i].key] == Read(es[i].value).value
    decreases |es|
  {
    if i < |es| - 1 {
      var init := es[..|es| - 1];
      assert init[i] == es[i];
      CollectValue(init, bound, i);
    }
  }

  /** An upper bound on the sizes of the values in `es`. */
  function Bound(es: seq<Entry>): (b: nat)
    ensures forall i :: 0 <= i < |es| ==> Size(es[i].value) < b
  {
    if |es| == 0 then 1
    else
      var rest := Bound(es[1..]);
      assert forall i :: 1 <= i < |es| ==> es[i] == es[1..][i - 1];
      if Size(es[0].value) < rest then rest else Size(es[0].value) + 1
  }

  /** `getKeyValuePropMap`: a shallow iteration over a dict's entries. Its
      error result is always nil, so it is not modelled. */
  function PropMap(es: seq<Entry>): (m: map<string, GoValue>)
    requires AllReadable(es)
  {
    Collect(es, Bound(es))
  }

  /** The result of `Collect` does not depend on the termination bound. */
  lemma {:induction false} CollectBoundIrrelevant(es: seq<Entry>, b1: nat, b2: nat)
    requires forall i :: 0 <= i < |es| ==> Size(es[i].value) < b1
    requires forall i :: 0 <= i < |es| ==> Size(es[i].value) < b2
    requires AllReadable(es)
    ensures Collect(es, b1) == Collect(es, b2)
    decreases |es|
  {
    if |es| > 0 {
      CollectBoundIrrelevant(es[..|es| - 1], b1, b2);
    }
  }

  /** A property map holds exactly the keys of the entries that convert. */
  lemma PropMapKeys(es: seq<Entry>, k: string)
    requires AllReadable(es)
    ensures k in PropMap(es) <==>
      exists i :: 0 <= i < |es| && es[i].key == k && Read(es[i].value).Success?
  {
    CollectKeys(es, Bound(es), k);
  }

  /** Under each key, a property map holds the value of the last entry with
      that key that converts. */
  lemma PropMapValue(es: seq<Entry>, i: nat)
    requires AllReadable(es)
    requires i < |es| && LastConverting(es, i)
    ensures es[i].key in PropMap(es)
    ensures PropMap(es)[es[i].key] == Read(es[i].value).value
  {
    CollectValue(es, Bound(es), i);
  }

  /** A blob-marked dict never yields a map, and `getBlob`'s error branch is
      unreachable: the reader always returns the Blob whose metadata is the
      dict's shallow property map. */
  lemma BlobPrecedence(entries: seq<Entry>)
    requires AllReadable(entries) && IsBlob(entries)
    ensures Readable(Dict(entries))
    ensures Read(Dict(entries)) == Success(BlobRef(Blob(PropMap(entries))))
  {
    var v := Dict(entries);
    forall i | 0 <= i < |entries|
      ensures Size(entries[i].value) < Size(v)
    {
      assert entries[i] == Child(v, i);
      ChildSize(v, i);
    }
    CollectBoundIrrelevant(entries, Size(v), Bound(entries));
  }

  /** Any other dict yields the map of its deep entries that convert. */
  lemma DictFlattens(entries: seq<Entry>, k: string)
    requires AllReadable(entries) && !IsBlob(entries)
    ensures Readable(Dict(entries))
    ensures Read(Dict(entries)).value.Map?
    ensures k in Read(Dict(entries)).value.fields <==>
      exists i :: 0 <= i < |DeepEntries(Dict(entries))| &&
        DeepEntries(Dict(entries))[i].key == k && Read(DeepEntries(Dict(entries))[i].value).Success?
  {
    var v := Dict(entries);
    EntriesSmaller(entries);
    assert Read(v) == Success(Map(Collect(DeepEntries(v), Size(v))));
    CollectKeys(DeepEntries(v), Size(v), k);
  }

  /** Under each key, such a dict's map holds the value of the last deep
      entry with that key that converts. */
  lemma DictFlattensValue(entries: seq<Entry>, i: nat)
    requires AllReadable(entries) && !IsBlob(entries)
    requires i < |DeepEntries(Dict(entries))| && LastConverting(DeepEntries(Dict(entries)), i)
    ensures DeepEntries(Dict(entries))[i].key in Read(Dict(entries)).value.fields
    ensures Read(Dict(entries)).value.fields[DeepEntries(Dict(entries))[i].key] ==
      Read(DeepEntries(Dict(entries))[i].value).value
  {
    var v := Dict(entries);
    EntriesSmaller(entries);
    assert Read(v) == Success(Map(Collect(DeepEntries(v), Size(v))));
    CollectValue(DeepEntries(v), Size(v), i);
  }

  // ===========================================================================
  // Writer

  /** What `storeGoValueInSlot` does with one Go value: it sets the slot, it
      returns `ErrUnsupportedGoType` leaving the slot untouched, or it panics. */
  datatype Written = Stored(slot: Slot) | Refused | WritePanicked

  /** The slot content left behind by a nested call whose error is ignored. */
  function SlotOf(w: Written): Slot {
    match w
    case Stored(s) => s
    case _ => Unset
  }

  /** `storeGoValueInSlot`. A nil interface panics (`reflect.TypeOf(nil)` has
      no `Kind`); a slice that is not `[]interface{}` panics on the type
      assertion, `[]byte` included. The switch is on the reflect kind, but
      each case asserts the unnamed type (`v.(string)`, `v.(int)`, ...), so a
      value of a defined type over a scalar or slice panics as well. Every signed kind goes through
      `FLSlot_SetInt`, every unsigned kind (uintptr included) through
      `FLSlot_SetUInt`; strings pass through `C.CString`. A slice or
      `map[string]interface{}` is written element by element into a fresh
      container: an element's error is ignored (its slot stays unset) while
      an element's panic unwinds through the whole call. Go arrays, other map
      types and every other kind return `ErrUnsupportedGoType`. */
  function Write(v: GoValue): (r: Written)
    ensures v.Signed? ==> r == Stored(IntSlot(v.i))
    ensures v.Unsigned? ==> r == Stored(UIntSlot(v.u))
    ensures v.Float32? ==> r == Stored(FloatSlot(v.f))
    ensures v.Float64? ==> r == Stored(DoubleSlot(v.d))
    ensures v.Str? ==> r == Stored(StringSlot(CString(v.s)))
    ensures v.List? && r.Stored? ==> r.slot.ArraySlot? && |r.slot.items| == |v.items|
    ensures v.Map? && r.Stored? ==> r.slot.DictSlot? && r.slot.fields.Keys == v.fields.Keys
  {
    match v
    case Nil => WritePanicked
    case Bool(b) => Stored(BoolSlot(b))
    case Signed(_, i) => Stored(IntSlot(i))
    case Unsigned(_, u) => Stored(UIntSlot(u))
    case Float32(f) => Stored(FloatSlot(f))
    case Float64(d) => Stored(DoubleSlot(d))
    case Str(s) => Stored(StringSlot(CString(s)))
    case Bytes(_) => WritePanicked
    case TypedSlice => WritePanicked
    case Named => WritePanicked
    case List(items) =>
      if exists i :: 0 <= i < |items| && Write(items[i]).WritePanicked? then WritePanicked
      else Stored(ArraySlot(seq(|items|, i requires 0 <= i < |items| => SlotOf(Write(items[i])))))
    case Map(fields) =>
      if exists k :: k in fields && Write(fields[k]).WritePanicked? then WritePanicked
      else Stored(DictSlot(map k | k in fields :: SlotOf(Write(fields[k]))))
    case BlobRef(_) => Refused
    case FixedArray => Refused
    case OtherMap => Refused
    case OtherKind => Refused
  }

  /** The Go values whose writing panics: a nil interface, a slice that is not
      `[]interface{}`, a value of a defined scalar or slice type, or a slice or
      map holding such a value at any depth. */
  predicate WritePanics(v: GoValue) {
    match v
    case Nil => true
    case Bytes(_) => true
    case TypedSlice => true
    case Named => true
    case List(items) => exists i :: 0 <= i < |items| && WritePanics(items[i])
    case Map(fields) => exists k :: k in fields && WritePanics(fields[k])
    case _ => false
  }

  /** The top-level shapes the writer knows how to encode. */
  predicate Encodable(v: GoValue) {
    v.Bool? || v.Signed? || v.Unsigned? || v.Float32? || v.Float64? || v.Str? || v.List? || v.Map?
  }

  /** The writer's three outcomes, characterised without reference to its body. */
  lemma {:induction false} WriteOutcomes(v: GoValue)
    ensures Write(v).WritePanicked? <==> WritePanics(v)
    ensures Write(v).Refused? <==> !WritePanics(v) && !Encodable(v)
    ensures Write(v).Stored? <==> !WritePanics(v) && Encodable(v)
  {
    match v
    case List(items) =>
      forall i | 0 <= i < |items| { WriteOutcomes(items[i]); }
    case Map(fields) =>
      forall k | k in fields { WriteOutcomes(fields[k]); }
    case _ =>
  }

  /** `WriteOutcomes` for every value of a map. */
  lemma WriteOutcomesAll(m: map<string, GoValue>)
    ensures forall k :: k in m ==> (Write(m[k]).WritePanicked? <==> WritePanics(m[k]))
  {
    forall k | k in m { WriteOutcomes(m[k]); }
  }

  /** Errors of nested elements are not propagated: a slice holding an
      unsupported element is still written, with that element's slot unset. */
  lemma NestedErrorSwallowed(items: seq<GoValue>, j: nat)
    requires j < |items| && items[j].FixedArray?
    requires forall i :: 0 <= i < |items| ==> !WritePanics(items[i])
    ensures Write(List(items)).Stored?
    ensures Write(List(items)).slot.items[j] == Unset
  {
    forall i | 0 <= i < |items| { WriteOutcomes(items[i]); }
  }

  // ---------------------------------------------------------------------------
  // Reading a slot back as a host value

  /** The Go value a slot encodes when read back by the reader: every integer
      as an `int64`, since Fleece flags every integer as one and the reader
      tests that flag first (an unsigned value of 2^63 or more so comes back
      negative; see `NumberSlotsReadBack`); an unset slot or one given the
      NULL value as nil. */
  function SlotToGo(s: Slot): GoValue {
    match s
    case Unset => Nil
    case NullValue => Nil
    case IntSlot(i) => Signed(Int64, i)
    case UIntSlot(u) => Signed(Int64, ToInt64(u))
    case FloatSlot(f) => Float32(f)
    case DoubleSlot(d) => Float64(d)
    case BoolSlot(b) => Bool(b)
    case StringSlot(s) => Str(s)
    case ArraySlot(items) => List(seq(|items|, i requires 0 <= i < |items| => SlotToGo(items[i])))
    case DictSlot(fields) => Map(map k | k in fields :: SlotToGo(fields[k]))
    case BlobSlot(b) => BlobRef(b)
  }

  /** The host value a write and read-back preserves: every integer as an
      `int64` (an unsigned one by its two's-complement reading), strings cut
      at their first NUL, and values of a refused shape replaced by nil. */
  function Widen(v: GoValue): GoValue {
    if !Encodable(v) then Nil
    else match v
      case Signed(_, i) => Signed(Int64, i)
      case Unsigned(_, u) => Signed(Int64, ToInt64(u))
      case Str(s) => Str(CString(s))
      case List(items) => List(seq(|items|, i requires 0 <= i < |items| => Widen(items[i])))
      case Map(fields) => Map(map k | k in fields :: Widen(fields[k]))
      case _ => v
  }

  /** Writing and reading back loses exactly what `Widen` forgets. */
  lemma {:induction false} WriteThenDecode(v: GoValue)
    requires !WritePanics(v)
    ensures SlotToGo(SlotOf(Write(v))) == Widen(v)
    decreases v, 1
  {
    WriteOutcomes(v);
    match v
    case List(_) => ListThenDecode(v);
    case Map(_) => MapThenDecode(v);
    case _ =>
  }

  /** The slice case of `WriteThenDecode`: element by element. */
  lemma {:induction false} ListThenDecode(v: GoValue)
    requires v.List? && !WritePanics(v)
    ensures SlotToGo(SlotOf(Write(v))) == Widen(v)
    decreases v, 0
  {
    WriteOutcomes(v);
    forall i | 0 <= i < |v.items| { WriteThenDecode(v.items[i]); }
    assert SlotToGo(SlotOf(Write(v))).items == Widen(v).items;
  }

  /** The map case of `WriteThenDecode`: key by key. */
  lemma {:induction false} MapThenDecode(v: GoValue)
    requires v.Map? && !WritePanics(v)
    ensures SlotToGo(SlotOf(Write(v))) == Widen(v)
    decreases v, 0
  {
    WriteOutcomes(v);
    forall k | k in v.fields { WriteThenDecode(v.fields[k]); }
    assert SlotToGo(SlotOf(Write(v))).fields == Widen(v).fields;
  }

  /** The host values that survive a write and read-back unchanged: `int64`
      values, floating-point values, NUL-free strings, booleans, and slices
      or maps of such values. An unsigned value comes back as an `int64`. */
  predicate Canonical(v: GoValue) {
    match v
    case Bool(_) => true
    case Signed(k, _) => k == Int64
    case Float32(_) => true
    case Float64(_) => true
    case Str(s) => NulFree(s)
    case List(items) => forall i :: 0 <= i < |items| ==> Canonical(items[i])
    case Map(fields) => forall k :: k in fields ==> Canonical(fields[k])
    case _ => false
  }

  /** Round trip: a canonical value is stored, and decoding the slot gives it back. */
  lemma {:induction false} CanonicalRoundTrip(v: GoValue)
    requires Canonical(v)
    ensures Write(v).Stored?
    ensures SlotToGo(Write(v).slot) == v
  {
    CanonicalWidens(v);
    WriteOutcomes(v);
    WriteThenDecode(v);
  }

  /** `storeGoValueInSlot` as written: a slice or map is filled element by
      element as `Write` describes (an element's panic still unwinds), but
      the slot is then given `FLMutableArray_GetSource` /
      `FLMutableDict_GetSource` of the fresh container. A container made by
      `New` has no source, so the slot receives NULL and none of the
      elements are attached. `Write` is the evidently intended writer. */
  function WriteAsWritten(v: GoValue): (r: Written)
    ensures r.WritePanicked? <==> WritePanics(v)
    ensures r.Refused? <==> Write(v).Refused?
    ensures (v.List? || v.Map?) && r.Stored? ==> r.slot == NullValue
  {
    WriteOutcomes(v);
    var w := Write(v);
    if w.Stored? && (v.List? || v.Map?) then Stored(NullValue) else w
  }

  /** As written, a canonical value survives a write and a read-back exactly
      when it is not a slice or map: every container is lost. */
  lemma ContainersLost(v: GoValue)
    requires Canonical(v)
    ensures WriteAsWritten(v).Stored?
    ensures SlotToGo(WriteAsWritten(v).slot) == v <==> !v.List? && !v.Map?
  {
    CanonicalRoundTrip(v);
  }

  /** The slice `[]interface{}{int64(1)}` comes back from the intended writer
      and is lost by the writer as written. */
  lemma ContainerLostExample()
    ensures SlotToGo(SlotOf(Write(List([Signed(Int64, 1)])))) == List([Signed(Int64, 1)])
    ensures SlotToGo(SlotOf(WriteAsWritten(List([Signed(Int64, 1)])))) == Nil
  {
    CanonicalRoundTrip(List([Signed(Int64, 1)]));
  }

  lemma {:induction false} CanonicalWidens(v: GoValue)
    requires Canonical(v)
    ensures !WritePanics(v) && Encodable(v) && Widen(v) == v
  {
    match v
    case List(items) =>
      forall i | 0 <= i < |items| { CanonicalWidens(items[i]); }
      assert Widen(v).items == items;
    case Map(fields) =>
      forall k | k in fields { CanonicalWidens(fields[k]); }
      assert Widen(v).fields == fields;
    case Str(s) =>
      CStringIdentity(s);
    case _ =>
  }

  /** The reader's scalar results are canonical, so they survive a write. */
  lemma ReadScalarRoundTrip(v: FLValue)
    requires v.Boolean? || v.Number? || v.String?
    requires v.Number? ==> FleeceFlags(v.num)
    ensures Canonical(Read(v).value)
    ensures SlotToGo(Write(Read(v).value).slot) == Read(v).value
  {
  }

  /** Reading an engine null or a non-empty array and writing the result back
      panics: the reader gives nil and raw bytes, which the writer cannot take. */
  lemma ReadThenWritePanics(v: FLValue)
    requires Readable(v)
    requires v.Null? || (v.Array? && |v.items| > 0)
    ensures Write(Read(v).value).WritePanicked?
  {
  }

  // ---------------------------------------------------------------------------
  // Reading integer slots back

  /** The engine number a slot set with `FLSlot_SetInt` or `FLSlot_SetUInt`
      holds. Fleece flags every integer as an integer, and as unsigned only
      when it is 2^63 or more; `FLValue_AsInt` gives the two's-complement
      reading and `FLValue_AsUnsigned` the unsigned one. The floating-point
      accessors are not reached for an integer. */
  function StoredNumber(s: Slot): (n: FLNumber)
    requires s.IntSlot? || s.UIntSlot?
    ensures n.isInteger && !n.isDouble && FleeceFlags(n)
  {
    match s
    case IntSlot(i) => FLNumber(true, false, false, i, ToUint64(i), 0, 0)
    case UIntSlot(u) => FLNumber(true, u >= 0x8000_0000_0000_0000, false, ToInt64(u), u, 0, 0)
  }

  /** `SlotToGo` decodes an integer slot exactly as the reader reads the
      number the engine holds for it. */
  lemma NumberSlotsReadBack(s: Slot)
    requires s.IntSlot? || s.UIntSlot?
    ensures Read(Number(StoredNumber(s))) == Success(SlotToGo(s))
  {
  }

  /** The value of a Go integer. */
  function IntegerValue(g: GoValue): int
    requires g.Signed? || g.Unsigned?
  {
    if g.Signed? then g.i else g.u
  }

  /** As written, the reader tests `FLValue_IsInteger` before
      `FLValue_IsUnsigned`, so the unsigned branch is never reached for an
      engine number: a `uint64` keeps its value exactly when it is below
      2^63, and 2^63 comes back as -2^63. */
  lemma UnsignedReadBackAsWritten(u: UInt64)
    ensures ReadNumber(StoredNumber(UIntSlot(u))).Signed?
    ensures IntegerValue(ReadNumber(StoredNumber(UIntSlot(u)))) == u <==> u < 0x8000_0000_0000_0000
    ensures ReadNumber(StoredNumber(UIntSlot(0x8000_0000_0000_0000))) == Signed(Int64, -0x8000_0000_0000_0000)
  {
  }

  /** The evidently intended reader: the unsigned test comes first, so a
      number the engine can only hold as a `uint64` is read as one. */
  function ReadNumberCorrected(n: FLNumber): (g: GoValue)
    ensures n.isUnsigned ==> g == Unsigned(Uint64, n.asUnsigned)
    ensures !n.isUnsigned ==> g == ReadNumber(n)
  {
    if n.isUnsigned then Unsigned(Uint64, n.asUnsigned) else ReadNumber(n)
  }

  /** With the corrected order, every integer slot reads back with its own value. */
  lemma IntegerReadBackCorrected(s: Slot)
    requires s.IntSlot? || s.UIntSlot?
    ensures var g := ReadNumberCorrected(StoredNumber(s));
      (g.Signed? || g.Unsigned?) && IntegerValue(g) == (if s.IntSlot? then s.i else s.u)
  {
  }
}
