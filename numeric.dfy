/** Numbers as the humidistat's two programs see them: floating-point readings
    that may be NaN (host and firmware alike), and the firmware's `uint32_t`
    millisecond clock, whose subtraction and addition wrap modulo 2^32. */
module Numeric {

  /** A floating-point value: NaN, or a finite value. Rounding is not modelled. */
  datatype Float = NaN | Num(v: real)

  /** `a < b` on floats: every comparison with NaN is false. */
  predicate Lt(a: Float, b: Float)
  {
    a.Num? && b.Num? && a.v < b.v
  }

  /** `a - b` on floats: NaN in, NaN out. */
  function Sub(a: Float, b: Float): (r: Float)
    ensures r.NaN? <==> a.NaN? || b.NaN?
    ensures r.Num? ==> r.v + b.v == a.v
  {
    if a.Num? && b.Num? then Num(a.v - b.v) else NaN
  }

  /** `a / d` for a non-zero constant divisor `d`. */
  function Div(a: Float, d: real): (r: Float)
    requires d != 0.0
    ensures r.NaN? <==> a.NaN?
    ensures r.Num? ==> r.v * d == a.v
  {
    if a.Num? then Num(a.v / d) else NaN
  }

  /** Python's `bool(x)` on a float: zero is false, everything else
      (NaN included) is true. */
  predicate Truthy(a: Float)
  {
    a.NaN? || a.v != 0.0
  }

  const TWO_32: int := 0x1_0000_0000

  /** The values of a C `uint32_t`. */
  type U32 = x: int | 0 <= x < TWO_32

  /** Conversion of an integer to `uint32_t`: reduction modulo 2^32. */
  function Wrap32(x: int): U32
  {
    x % TWO_32
  }

  /** `a - b` on `uint32_t`. */
  function Sub32(a: U32, b: U32): U32
  {
    Wrap32(a - b)
  }

  /** `a + b` on `uint32_t`. */
  function Add32(a: U32, b: U32): U32
  {
    Wrap32(a + b)
  }

  /** The elapsed time `now - start` of a timer is measured correctly even when
      the millisecond clock wraps past 2^32 in between (about every 49.7 days),
      as long as less than 2^32 ms have actually elapsed. */
  lemma ElapsedSurvivesRollover(start: U32, elapsed: U32)
    ensures Sub32(Add32(start, elapsed), start) == elapsed
  {
    if start + elapsed < TWO_32 {
      assert Add32(start, elapsed) == start + elapsed;
    } else {
      assert Add32(start, elapsed) == start + elapsed - TWO_32;
      assert Add32(start, elapsed) - start == elapsed - TWO_32;
    }
  }
}
