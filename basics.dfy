/** Scalar types shared by the model: the C++ `unsigned int` of the segment
    indices, an optional value, and non-negative reals for norms. */
module Basics {

  /** The range of a 32-bit C++ `unsigned int`. */
  type u32 = n: int | 0 <= n < 0x1_0000_0000

  /** Reduces an integer modulo 2^32, as unsigned arithmetic in C++ does
      (Dafny's `%` is Euclidean, so `WrapU32(-1)` is 0xFFFF_FFFF). */
  function WrapU32(n: int): (r: u32)
    ensures 0 <= n < 0x1_0000_0000 ==> r == n
    ensures n == -1 ==> r == 0xFFFF_FFFF
    ensures n == 0x1_0000_0000 ==> r == 0
  {
    n % 0x1_0000_0000
  }

  datatype Option<T> = None | Some(value: T)

  /** Reals that cannot be negative: the result type of every norm. */
  type NonNeg = r: real | r >= 0.0

  /** `std::fabs`, exact on reals. */
  function Abs(r: real): (a: NonNeg)
    ensures a == r || a == -r
  {
    if r < 0.0 then -r else r
  }
}
