/** Values shared by every component: failure datatypes, bytes, and the Rust integer types. */
module Basics {
  datatype Option<+T> = None | Some(value: T)

  datatype Result<+T, +E> = Ok(value: T) | Err(error: E)

  type byte = x: int | 0 <= x < 256

  /** A Rust `Vec<u8>`, and also a Rust `String` used as an identifier (its UTF-8 bytes). */
  type Bytes = seq<byte>

  const I64_MIN: int := -0x8000_0000_0000_0000
  const I64_MAX: int := 0x7fff_ffff_ffff_ffff
  const U64_RANGE: int := 0x1_0000_0000_0000_0000

  type i64 = x: int | I64_MIN <= x <= I64_MAX

  type u64 = x: int | 0 <= x < U64_RANGE

  function Saturate(x: int): i64 {
    if x < I64_MIN then I64_MIN else if x > I64_MAX then I64_MAX else x
  }

  function SaturatingAdd(a: i64, b: i64): i64 {
    Saturate(a + b)
  }

  function SaturatingSub(a: i64, b: i64): i64 {
    Saturate(a - b)
  }

  function SaturatingMul(a: i64, b: i64): i64 {
    Saturate(a * b)
  }

  /** Two's-complement wrap-around: Rust's plain `+`/`-` in a release build, and `u64 as i64`. */
  function Wrap(x: int): i64 {
    (x - I64_MIN) % U64_RANGE + I64_MIN
  }

  function Abs(x: int): nat {
    if x < 0 then -x else x
  }

  /** `limit` is compared against a saturated age. The verdict is the exact one unless the limit
      is the very value the age saturates to. */
  lemma SaturatedAgeIsExact(now: i64, then_: i64, limit: i64)
    ensures (SaturatingSub(now, then_) > limit <==> now - then_ > limit)
       <==> !(limit == I64_MAX && now - then_ > I64_MAX)
  {
  }
}
