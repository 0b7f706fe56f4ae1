/** Java's 32-bit two's-complement `int` and its wrap-around arithmetic. */
module JavaInt {

  const MIN_INT: int := -0x8000_0000
  const MAX_INT: int := 0x7fff_ffff

  /** 2^32: Java `int` arithmetic is exact modulo this. */
  const MODULUS: int := 0x1_0000_0000

  newtype int32 = x: int | -0x8000_0000 <= x < 0x8000_0000

  /** The Java `int` a mathematical integer wraps to: the unique value of
      the 32-bit range that is congruent to `x` modulo 2^32. */
  function Wrap(x: int): (r: int32)
    ensures (r as int - x) % 0x1_0000_0000 == 0
    ensures MIN_INT <= x <= MAX_INT ==> r as int == x
  {
    ((x - MIN_INT) % 0x1_0000_0000 + MIN_INT) as int32
  }

  /** The same for a multiple: if `x` and `y` agree modulo 2^32, so do
      `c * x` and `c * y`. */
  lemma CongruentScale(c: int, x: int, y: int)
    requires (x - y) % MODULUS == 0
    ensures (c * x - c * y) % MODULUS == 0
  {
    var q := (x - y) / MODULUS;
    assert x - y == q * MODULUS;
    assert c * x - c * y == (c * q) * MODULUS;
  }

  /** Agreement modulo 2^32 is transitive. */
  lemma CongruentTrans(x: int, y: int, z: int)
    requires (x - y) % MODULUS == 0 && (y - z) % MODULUS == 0
    ensures (x - z) % MODULUS == 0
  {
    var p, q := (x - y) / MODULUS, (y - z) / MODULUS;
    assert x - z == (p + q) * MODULUS;
  }

  /** Java `a + b` on two `int`s. */
  function Add(a: int32, b: int32): (r: int32)
    ensures (r as int - (a as int + b as int)) % MODULUS == 0
    ensures MIN_INT <= a as int + b as int <= MAX_INT ==> r as int == a as int + b as int
    ensures a as int + b as int > MAX_INT ==> r as int == a as int + b as int - 0x1_0000_0000
  {
    Wrap(a as int + b as int)
  }

  /** Java `a * b` on two `int`s. */
  function Mul(a: int32, b: int32): (r: int32)
    ensures (r as int - a as int * b as int) % MODULUS == 0
  {
    Wrap(a as int * b as int)
  }
}
