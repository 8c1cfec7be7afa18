/** Shared building blocks of the PixFu model: optional and failing results, glm vectors,
    the C++ conversions the headers rely on, and the C math library as uninterpreted functions. */
module Prelude {

  /** A value or nothing; `None` stands for a null pointer returned by the engine. */
  datatype Option<+T> = None | Some(value: T)

  /** A value or an error; `Err` stands for a C++ exception such as `std::out_of_range`. */
  datatype Result<+T> = Ok(value: T) | Err(error: string)

  /** glm::vec2 with `float` components modelled as `real`. */
  datatype Vec2 = Vec2(x: real, y: real)

  /** glm::vec3 with `float` components modelled as `real`. */
  datatype Vec3 = Vec3(x: real, y: real, z: real)

  function Scale3(v: Vec3, k: real): Vec3 {
    Vec3(v.x * k, v.y * k, v.z * k)
  }

  function Divide3(v: Vec3, k: real): Vec3
    requires k != 0.0
  {
    Vec3(v.x / k, v.y / k, v.z / k)
  }

  /** Dividing by k and multiplying back by k is the identity: the ×1000 / ÷1000 unit round trip. */
  lemma DivideThenScale(v: Vec3, k: real)
    requires k != 0.0
    ensures Scale3(Divide3(v, k), k) == v
  {
    assert v.x / k * k == v.x;
    assert v.y / k * k == v.y;
    assert v.z / k * k == v.z;
  }

  /** A squared difference is the same either way round, and never negative. */
  lemma {:induction false} SquareOfDifference(u: real, v: real)
    ensures (u - v) * (u - v) == (v - u) * (v - u) >= 0.0
  {
    assert (v - u) * (v - u) == (u - v) * (u - v);
  }

  /** The C math functions the headers call. Their values are not modelled: every property
      proved about the engine holds for any functions in these fields, unless a lemma states
      an assumption about them (such as `RootsNonNegative`). */
  datatype Libm = Libm(
    sqrt: real -> real,
    fastSqrt: real -> real,
    sin: real -> real,
    cos: real -> real,
    atan2: (real, real) -> real)

  /** Square roots of non-negative arguments are non-negative, as IEEE sqrt guarantees. */
  ghost predicate RootsNonNegative(m: Libm) {
    forall v: real :: v >= 0.0 ==> m.sqrt(v) >= 0.0 && m.fastSqrt(v) >= 0.0
  }

  /** C++ conversion of a floating value to an integer type: truncation toward zero. */
  function Trunc(r: real): (k: int)
    ensures r >= 0.0 ==> k >= 0 && k as real <= r < k as real + 1.0
    ensures r < 0.0 ==> k <= 0 && k as real - 1.0 < r <= k as real
  {
    if r >= 0.0 then r.Floor else -((-r).Floor)
  }

  const SIZE_T_MODULUS: int := 0x1_0000_0000_0000_0000
  const UINT_MODULUS: int := 0x1_0000_0000

  /** C++ conversion of a signed int to `size_t` (64-bit): reduction modulo 2^64. This is what
      happens to an `int` compared against, or reduced modulo, `std::vector::size()`. */
  function ToSizeT(k: int): (u: nat)
    ensures u < SIZE_T_MODULUS
    ensures 0 <= k < SIZE_T_MODULUS ==> u == k
    ensures -SIZE_T_MODULUS <= k < 0 ==> u == k + SIZE_T_MODULUS
  {
    k % SIZE_T_MODULUS
  }

  /** C++ conversion of a signed int to 32-bit `unsigned`. */
  function ToUnsigned(k: int): (u: nat)
    ensures u < UINT_MODULUS
    ensures 0 <= k < UINT_MODULUS ==> u == k
  {
    k % UINT_MODULUS
  }

  /** C++ conversion of an `unsigned` to `int` (two's complement, as C++20 defines it). */
  function ToSigned(u: nat): (k: int)
    requires u < UINT_MODULUS
    ensures ToUnsigned(k) == u
    ensures u < 0x8000_0000 ==> k == u
  {
    if u < 0x8000_0000 then u else u - UINT_MODULUS
  }

  type uint32 = u: nat | u < 0x1_0000_0000
}
