/** Small vocabulary shared by every module of the model. */
module Prelude {

  /** Stands in for Go's zero values with an `ok` flag and for Swift's optionals. */
  datatype Option<+T> = None | Some(value: T)

  /** One byte of a stream or of a signed message. */
  newtype byte = b: int | 0 <= b < 256

  type Bytes = seq<byte>

  function Min(a: int, b: int): int {
    if a < b then a else b
  }

  function Max(a: int, b: int): int {
    if a < b then b else a
  }

  /** The last `n` elements of a sequence, or all of it when it is shorter. */
  function LastOf<T>(s: seq<T>, n: int): seq<T> {
    if n <= 0 then [] else if |s| <= n then s else s[|s| - n..]
  }

  /** Appending one element before keeping the last `n` is keeping the last `n` of the longer sequence. */
  lemma LastOfAppend<T>(s: seq<T>, x: T, n: int)
    ensures LastOf(LastOf(s, n) + [x], n) == LastOf(s + [x], n)
  {
  }

  ghost predicate Distinct<T>(s: seq<T>) {
    forall i, j :: 0 <= i < j < |s| ==> s[i] != s[j]
  }

  /** The elements of a sequence. */
  ghost function Elements<T>(s: seq<T>): set<T> {
    set x | x in s
  }

  /** A sequence that lists every element of a set exactly once: one possible iteration order. */
  ghost predicate Enumerates<T>(order: seq<T>, elements: set<T>) {
    Distinct(order) && Elements(order) == elements
  }
}
