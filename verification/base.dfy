/** Definitions every other module shares: optional values, the order of two
    integers, and Go's 64-bit two's-complement integers. */
module Base {

  datatype Option<+T> = None | Some(value: T)

  function Max(a: int, b: int): int {
    if a < b then b else a
  }

  function Min(a: int, b: int): int {
    if a < b then a else b
  }

  /** A non-empty sequence without its last element, and that element. */
  function Front<T>(s: seq<T>): seq<T>
    requires s != []
  {
    s[..|s| - 1]
  }

  function Last<T>(s: seq<T>): T
    requires s != []
  {
    s[|s| - 1]
  }

  const MAX_INT64: int := 0x7fff_ffff_ffff_ffff
  const MIN_INT64: int := -0x8000_0000_0000_0000
  const TWO_TO_THE_64: int := 0x1_0000_0000_0000_0000

  /** A value of Go's int64. */
  type Int64 = x: int | MIN_INT64 <= x <= MAX_INT64 witness 0

  /** The int64 congruent to x: what Go keeps of a result that overflowed. */
  function Wrap64(x: int): (r: Int64)
    ensures (r - x) % TWO_TO_THE_64 == 0
    ensures MIN_INT64 <= x <= MAX_INT64 ==> r == x
    ensures x >= MIN_INT64 ==> r <= x
  {
    (x - MIN_INT64) % TWO_TO_THE_64 + MIN_INT64
  }

  lemma EmptyTogether<T(!new)>(a: seq<T>, b: seq<T>)
    requires forall x :: x in a <==> x in b
    ensures a == [] <==> b == []
  {
    if a != [] { assert a[0] in a; }
    if b != [] { assert b[0] in b; }
  }
}
