/**
 * The Rust primitive types that the geoip2 records carry and that the
 * serializer pushes: fixed-width unsigned integers and IEEE doubles.
 */
module Prims {

  newtype U16 = x: int | 0 <= x < 0x1_0000

  newtype U32 = x: int | 0 <= x < 0x1_0000_0000

  /** An f64 is carried as its bit pattern; no floating-point arithmetic is modelled. */
  datatype F64 = F64(bits: bv64)

  /** i32::MAX, the cap on the length of a Vec pushed as a Lua table. */
  const I32_MAX: int := 0x7fff_ffff

  function Min(a: int, b: int): (r: int)
    ensures r <= a && r <= b && (r == a || r == b)
  {
    if a <= b then a else b
  }
}
