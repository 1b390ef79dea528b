/**
 * Stand-ins for the Swift standard library and Foundation values the crawler
 * uses: fixed-width integers (with their ranges written out, since Swift traps
 * on overflow), `URL` reduced to the parts the engine looks at, delays as
 * opaque `TimeInterval` values, and opaque foreign values.
 */
module Foundation {
  import opened Wrappers

  const UINT64_MAX: int := 0xFFFF_FFFF_FFFF_FFFF
  const INT_MAX: int := 0x7FFF_FFFF_FFFF_FFFF
  const INT_MIN: int := -0x8000_0000_0000_0000

  /** Swift's `UInt64`: arithmetic leaving this range traps. */
  type UInt64 = x: int | 0 <= x <= UINT64_MAX

  /** Swift's `Int` on a 64-bit platform. */
  type Int = x: int | INT_MIN <= x <= INT_MAX

  /** Swift's `Int(clamping:)` applied to a `UInt64`. */
  function ClampToInt(x: UInt64): (r: Int)
    ensures 0 <= r <= x
    ensures x <= INT_MAX ==> r == x
    ensures INT_MAX < x ==> r == INT_MAX
  {
    if x <= INT_MAX then x else INT_MAX
  }

  function Min(a: int, b: int): (m: int)
    ensures m <= a && m <= b && (m == a || m == b)
  {
    if a <= b then a else b
  }

  /** Regular-expression patterns and hosts are plain strings (`typealias Domain = String`). */
  type Domain = string

  /**
   * A `URL`, reduced to what the engine reads: `URL.host` (absent for URLs
   * without an authority) and everything else as an opaque remainder.
   * Equality of two URLs is equality of both parts.
   */
  datatype URL = URL(host: Option<string>, rest: string)

  /** Seconds, a floating-point value in Swift; the model never computes with it. */
  type TimeInterval = real

  /** `ClosedRange<TimeInterval>`, kept as its two bounds. */
  datatype ClosedRange = ClosedRange(lowerBound: TimeInterval, upperBound: TimeInterval)

  function TwoToThe(n: nat): nat
  {
    if n == 0 then 1 else 2 * TwoToThe(n - 1)
  }

  /** `TimeInterval.greatestFiniteMagnitude`, the largest finite `Double`: (2^53 - 1) * 2^971. */
  const GREATEST_FINITE_MAGNITUDE: TimeInterval := (0x1F_FFFF_FFFF_FFFF * TwoToThe(971)) as real

  /** A Foundation `URLResponse`, opaque to the engine. */
  datatype URLResponse = URLResponse(id: nat)

  /** Any Swift `Error` thrown by foreign code, opaque to the engine. */
  datatype SwiftError = SwiftError(id: nat)
}
