/**
 The two dynamic value models the binding moves between.

 An engine (Fleece) value is a tagged union whose tag the binding reads with
 `FLValue_GetType`; numbers carry the engine's own integer / unsigned /
 double classification. A Go value is what an `interface{}` holds, described
 by the reflect kind the writer switches on. A `Slot` records which Fleece
 setter the writer called on a mutable array or dict slot.
 */
module Values {
  import opened Common

  /** The engine's view of a number: the three classification flags and the
      four accessors the reader may call. Floating-point payloads are opaque bits. */
  datatype FLNumber = FLNumber(
    isInteger: bool,
    isUnsigned: bool,
    isDouble: bool,
    asInt: Int64,
    asUnsigned: UInt64,
    asDouble: bv64,
    asFloat: bv32)

  /** Fleece flags every integer as an integer, an unsigned one included:
      `isUnsigned` marks an integer that only fits a `uint64`. */
  predicate FleeceFlags(n: FLNumber) {
    n.isUnsigned ==> n.isInteger
  }

  /** An engine value. `String.tail` is the engine memory that follows the
      string's bytes, which `C.GoString` reads on into when it is handed only
      the start of the string. `Array.image` is the engine memory found at
      the array's address, which is what `C.GoBytes` copies when it is
      handed the array pointer. `Unrecognized` stands for any type tag
      outside the known set. */
  datatype FLValue =
    | Undefined
    | Null
    | Boolean(b: bool)
    | Number(num: FLNumber)
    | String(chars: string, tail: string)
    | Data(data: seq<byte>)
    | Array(items: seq<FLValue>, image: seq<byte>)
    | Dict(entries: seq<Entry>)
    | Unrecognized(tag: int)

  /** One key/value pair of a dict, as a dict iterator presents it. */
  datatype Entry = Entry(key: string, value: FLValue)

  datatype SignedKind = Int | Int8 | Int16 | Int32 | Int64
  datatype UnsignedKind = Uint | Uintptr | Uint8 | Uint16 | Uint32 | Uint64

  /** A Go dynamic value. Integer values are held at 64 bits: widening a value
      of a narrower kind to `int64`/`uint64` is exact, so only the kind tag
      needs to be kept. The last five constructors are the shapes the writer
      refuses or cannot handle. */
  datatype GoValue =
    | Nil                                    // the nil interface
    | Bool(b: bool)
    | Signed(skind: SignedKind, i: Int64)
    | Unsigned(ukind: UnsignedKind, u: UInt64)
    | Float32(f: bv32)
    | Float64(d: bv64)
    | Str(s: string)
    | Bytes(data: seq<byte>)                 // []byte
    | List(items: seq<GoValue>)              // []interface{}
    | Map(fields: map<string, GoValue>)      // map[string]interface{}
    | BlobRef(blob: Blob)                    // *Blob
    | TypedSlice                             // any other slice type, e.g. []string
    | FixedArray                             // a Go array type such as [4]int
    | OtherMap                               // a map type other than map[string]interface{}, named ones included
    | OtherKind                              // struct, pointer, chan, func, complex, ...
    | Named                                  // a defined type over a string, number, bool or slice,
                                             // e.g. time.Duration or `type ID string`

  /** A blob attachment as the host sees it: its converted metadata dict. */
  datatype Blob = Blob(props: map<string, GoValue>)

  /** What the writer stored into one Fleece slot. `Unset` is a slot that was
      created (appended or keyed) but never given a value. */
  datatype Slot =
    | Unset
    | IntSlot(i: Int64)
    | UIntSlot(u: UInt64)
    | FloatSlot(f: bv32)
    | DoubleSlot(d: bv64)
    | BoolSlot(b: bool)
    | StringSlot(s: string)
    | ArraySlot(items: seq<Slot>)
    | DictSlot(fields: map<string, Slot>)
    | BlobSlot(blob: Blob)
    | NullValue                              // given the NULL value pointer

  // ---------------------------------------------------------------------------
  // Children, size and readability of engine values

  function NumChildren(v: FLValue): nat {
    match v
    case Array(items, _) => |items|
    case Dict(entries) => |entries|
    case _ => 0
  }

  /** The `i`-th child of a container as an iterator reports it: a dict child
      keeps its key, an array item has no key, which reaches Go as "". */
  function Child(v: FLValue, i: nat): Entry
    requires i < NumChildren(v)
  {
    match v
    case Array(items, _) => Entry("", items[i])
    case Dict(entries) => entries[i]
  }

  /** Number of values in the tree rooted at `v`. */
  function Size(v: FLValue): (n: nat)
    ensures n >= 1
    decreases v, 1
  {
    1 + ChildrenSize(v, 0)
  }

  function ChildrenSize(v: FLValue, from: nat): nat
    decreases v, 0, NumChildren(v) - from
  {
    if from >= NumChildren(v) then 0
    else
      var c := match v
        case Array(items, _) => items[from]
        case Dict(entries) => entries[from].value;
      Size(c) + ChildrenSize(v, from + 1)
  }

  lemma {:induction false} ChildSmaller(v: FLValue, from: nat, j: nat)
    requires from <= j < NumChildren(v)
    ensures Size(Child(v, j).value) <= ChildrenSize(v, from)
    decreases j - from
  {
    if from < j {
      ChildSmaller(v, from + 1, j);
    }
  }

  /** Every child is strictly smaller than its container. */
  lemma ChildSize(v: FLValue, j: nat)
    requires j < NumChildren(v)
    ensures Size(Child(v, j).value) < Size(v)
  {
    ChildSmaller(v, 0, j);
  }

  /** Every entry of a dict is strictly smaller than the dict. */
  lemma EntriesSmaller(entries: seq<Entry>)
    ensures forall i :: 0 <= i < |entries| ==> Size(entries[i].value) < Size(Dict(entries))
  {
    forall i | 0 <= i < |entries|
      ensures Size(entries[i].value) < Size(Dict(entries))
    {
      assert entries[i] == Child(Dict(entries), i);
      ChildSize(Dict(entries), i);
    }
  }

  /** `C.GoBytes(array, count)` reads `count` bytes at the array's address; the
      engine memory there must hold that many. Holds for every array in the tree. */
  predicate Readable(v: FLValue) {
    match v
    case Array(items, image) =>
      |image| >= |items| && forall i :: 0 <= i < |items| ==> Readable(items[i])
    case Dict(entries) =>
      forall i :: 0 <= i < |entries| ==> Readable(entries[i].value)
    case _ => true
  }

  predicate AllReadable(es: seq<Entry>) {
    forall i :: 0 <= i < |es| ==> Readable(es[i].value)
  }

  // ---------------------------------------------------------------------------
  // Deep iteration

  /** The entries a deep iterator over `v` visits: every descendant of `v` in
      pre-order (each child, then the child's own descendants, then the next
      child). `v` itself is not visited. */
  function DeepEntries(v: FLValue): (r: seq<Entry>)
    ensures forall i :: 0 <= i < |r| ==> Size(r[i].value) < Size(v)
    ensures Readable(v) ==> AllReadable(r)
    decreases v, 1
  {
    DeepFrom(v, 0)
  }

  function DeepFrom(v: FLValue, from: nat): (r: seq<Entry>)
    ensures forall i :: 0 <= i < |r| ==> Size(r[i].value) < Size(v)
    ensures Readable(v) ==> AllReadable(r)
    decreases v, 0, NumChildren(v) - from
  {
    if from >= NumChildren(v) then []
    else
      var c := match v
        case Array(items, _) => Entry("", items[from])
        case Dict(entries) => entries[from];
      assert c == Child(v, from);
      ChildSize(v, from);
      [c] + DeepEntries(c.value) + DeepFrom(v, from + 1)
  }

  // ---------------------------------------------------------------------------
  // Blob references

  /** The value of the first entry whose key is `k`. */
  function Lookup(es: seq<Entry>, k: string): (r: Option<FLValue>)
    ensures r.Some? <==> exists i :: 0 <= i < |es| && es[i].key == k
    ensures r.Some? ==> exists i :: 0 <= i < |es| && es[i] == Entry(k, r.value) &&
                                    (forall j :: 0 <= j < i ==> es[j].key != k)
  {
    if |es| == 0 then None
    else if es[0].key == k then Some(es[0].value)
    else Lookup(es[1..], k)
  }

  const TypeProperty: string := "@type"
  const BlobType: string := "blob"

  /** A dict is a blob reference exactly when its `@type` property is the
      string "blob", compared by its own bytes. */
  predicate IsBlob(es: seq<Entry>) {
    var t := Lookup(es, TypeProperty);
    t.Some? && t.value.String? && t.value.chars == BlobType
  }
}
