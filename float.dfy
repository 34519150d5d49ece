/**
 * The engine's numbers are JavaScript numbers, that is IEEE 754 binary64 values.
 * A number is kept as its 64-bit pattern; the model fixes the constants the engine
 * uses and the one comparison it makes (`=== 0`), and takes every arithmetic,
 * transcendental, parsing and formatting operation from a `Platform` it is given.
 */
module Float {

  /** A JavaScript number, as its binary64 bit pattern. */
  type Num = bv64

  /** The NaN that the `NaN` global evaluates to. */
  const NaN: Num := 0x7FF8_0000_0000_0000
  const PositiveZero: Num := 0x0000_0000_0000_0000
  const NegativeZero: Num := 0x8000_0000_0000_0000
  /** -1, the factor of the sign toggle. */
  const MinusOne: Num := 0xBFF0_0000_0000_0000
  /** 100, the divisor of the percent key. */
  const Hundred: Num := 0x4059_0000_0000_0000
  /** 180, the degrees in a half turn. */
  const HalfTurn: Num := 0x4066_8000_0000_0000
  /** `Math.PI`. */
  const Pi: Num := 0x4009_21FB_5444_2D18

  /** The NaNs: every exponent bit set and a non-zero fraction, of either sign. */
  predicate IsNaN(x: Num)
  {
    x & 0x7FF0_0000_0000_0000 == 0x7FF0_0000_0000_0000 && x & 0x000F_FFFF_FFFF_FFFF != 0
  }

  /** `x === 0`: true of both zeros, false of everything else (NaN included). */
  predicate IsZero(x: Num)
  {
    x == PositiveZero || x == NegativeZero
  }

  /**
   * The runtime's floating-point library: `parseFloat`, `String(x)` (the same as
   * `x.toString()` and a number in a template literal), the operators `+ - * /`,
   * `Math.pow`, `Math.sqrt`, `Math.sin`, `Math.cos`, `Math.tan`, `Math.log10`
   * and `Math.log`. Nothing is assumed about them.
   */
  datatype Platform = Platform(
    parseFloat: string -> Num,
    toString: Num -> string,
    add: (Num, Num) -> Num,
    sub: (Num, Num) -> Num,
    mul: (Num, Num) -> Num,
    div: (Num, Num) -> Num,
    pow: (Num, Num) -> Num,
    sqrt: Num -> Num,
    sin: Num -> Num,
    cos: Num -> Num,
    tan: Num -> Num,
    log10: Num -> Num,
    ln: Num -> Num)

  /** `x * Math.PI / 180`, evaluated left to right. */
  function Radians(fp: Platform, x: Num): (r: Num)
  {
    fp.div(fp.mul(x, Pi), HalfTurn)
  }
}
