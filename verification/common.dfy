/**
 Shared vocabulary of the binding: its sentinel errors, Go's
 fixed-width integer ranges, the conversions cgo performs on strings and
 integers, and the outcome types used when an operation returns an error
 or panics.
 */
module Common {

  type byte = x: int | 0 <= x < 0x100

  /** Go `int64`, also the width of `int` on the 64-bit platforms the binding targets. */
  type Int64 = x: int | -0x8000_0000_0000_0000 <= x < 0x8000_0000_0000_0000

  /** Go `uint64`, also the width of `uint` and `uintptr`. */
  type UInt64 = x: int | 0 <= x < 0x1_0000_0000_0000_0000

  type UInt32 = x: int | 0 <= x < 0x1_0000_0000

  const NUL: char := 0 as char

  datatype Option<+T> = None | Some(value: T)

  /** The binding's sentinel errors, plus the formatted internal errors
      that carry the engine's error domain and code. */
  datatype CblError =
    | InvalidCBLType
    | DocumentIsNotReadOnly
    | ProblemReadingDocument
    | ProblemSavingDocument
    | ProblemGettingBlobWithData
    | ProblemCreatingBlobWithData
    | UnsupportedGoType
    | NoUuidInContext
    | EngineError(domain: int, code: int)

  datatype Result<+T> = Success(value: T) | Failure(error: CblError)

  /** Why a Go call unwinds instead of returning. */
  datatype PanicReason =
    | NilDereference          // a method called on a nil interface or nil pointer
    | FailedTypeAssertion     // a single-result `x.(T)` whose dynamic type is not T
    | IndexOutOfRange         // an index past the end of a fixed-size array
    | NonComparableKey        // `context.WithValue` given a key Go cannot compare

  /** The result of a Go call that may panic. */
  datatype Outcome<+T> = Returned(value: T) | Panicked(reason: PanicReason)

  /** Index of the first NUL in `s`, or `|s|` when there is none. */
  function NulIndex(s: string): (n: nat)
    ensures n <= |s|
    ensures forall i :: 0 <= i < n ==> s[i] != NUL
    ensures n < |s| ==> s[n] == NUL
  {
    if |s| == 0 then 0
    else if s[0] == NUL then 0
    else 1 + NulIndex(s[1..])
  }

  predicate NulFree(s: string) {
    forall i :: 0 <= i < |s| ==> s[i] != NUL
  }

  /** What C sees of a Go string passed through `C.CString`, and what
      `C.GoString` makes of a C buffer: everything before the first NUL. */
  function CString(s: string): (c: string)
    ensures c <= s
    ensures NulFree(c)
    ensures |c| < |s| ==> s[|c|] == NUL
  {
    s[..NulIndex(s)]
  }

  /** Strings without NUL cross the C boundary unchanged, and only those. */
  lemma CStringIdentity(s: string)
    ensures CString(s) == s <==> NulFree(s)
  {
  }

  /** A C string read back into Go and sent through C again stays the same. */
  lemma CStringIdempotent(s: string)
    ensures CString(CString(s)) == CString(s)
  {
  }

  /** `C.GoString` handed the bytes of `s` with `tail` after them in memory
      reads on past the end of `s` until a NUL. It stops within `s` exactly
      as `CString(s)` does when `s` has a NUL of its own or `tail` starts
      with one. */
  lemma {:induction false} CStringStopsAtNul(s: string, tail: string)
    requires !NulFree(s) || (|tail| > 0 && tail[0] == NUL)
    ensures CString(s + tail) == CString(s)
  {
    if |s| > 0 && s[0] != NUL {
      assert (s + tail)[1..] == s[1..] + tail;
      CStringStopsAtNul(s[1..], tail);
    }
  }

  /** Go's conversion `int64(u)` of a `uint64`: its two's-complement reading. */
  function ToInt64(u: UInt64): (x: Int64)
    ensures u < 0x8000_0000_0000_0000 <==> x == u
    ensures x < 0 <==> u >= 0x8000_0000_0000_0000
  {
    if u < 0x8000_0000_0000_0000 then u else u - 0x1_0000_0000_0000_0000
  }

  /** Go's conversion `uint64(i)` of an `int64`: the value modulo 2^64. */
  function ToUint64(i: Int64): (u: UInt64)
    ensures ToInt64(u) == i
  {
    if i >= 0 then i else i + 0x1_0000_0000_0000_0000
  }

  /** Go's conversion `uint32(x)` from any integer type: the value modulo 2^32. */
  function ToUint32(x: int): (r: UInt32)
    ensures 0 <= x < 0x1_0000_0000 ==> r == x
    ensures -0x8000_0000 <= x < 0 ==> r == x + 0x1_0000_0000
  {
    x % 0x1_0000_0000
  }

  /** Reading a `uint32` back as the signed 32-bit value it encodes. */
  function FromUint32(u: UInt32): (x: int)
    ensures -0x8000_0000 <= x < 0x8000_0000
    ensures ToUint32(x) == u
  {
    if u < 0x8000_0000 then u else u - 0x1_0000_0000
  }

  /** For a native field holding a C `int`, `uint32(x)` loses nothing. */
  lemma ToUint32Lossless(x: int)
    requires -0x8000_0000 <= x < 0x8000_0000
    ensures FromUint32(ToUint32(x)) == x
  {
  }
}
