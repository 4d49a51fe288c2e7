/** The fixed-width .NET integer types the core is built on. Dafny's `int` is
    unbounded, so the widths are stated as subset types. */
module Primitives {

  const MinInt64: int := -0x8000_0000_0000_0000
  const MaxInt64: int := 0x7FFF_FFFF_FFFF_FFFF

  const MinInt32: int := -0x8000_0000
  const MaxInt32: int := 0x7FFF_FFFF

  /** A .NET `long` (System.Int64). */
  type Int64 = x: int | MinInt64 <= x <= MaxInt64

  /** A .NET `int` (System.Int32), the type of `CompareTo` and `GetHashCode` results. */
  type Int32 = x: int | MinInt32 <= x <= MaxInt32
}
