/** 64-bit machine words, and the signed-difference order the scheduler compares times with. */
module Words {

  const TWO63: int := 0x8000_0000_0000_0000
  const TWO64: int := 0x1_0000_0000_0000_0000

  type U64 = x: int | 0 <= x < TWO64

  /** The u64 an integer is stored as. */
  function Wrap(x: int): U64 {
    x % TWO64
  }

  /** The cast of a u64 to s64. */
  function AsSigned(x: U64): int {
    if x < TWO63 then x else x - TWO64
  }

  /** vtime_before: the sign of the wrapped difference. */
  predicate VtimeBefore(a: U64, b: U64) {
    AsSigned(Wrap(a - b)) < 0
  }

  function Max(a: int, b: int): int {
    if a < b then b else a
  }

  function Min(a: int, b: int): int {
    if a < b then a else b
  }

  /** What vtime_before computes, for any two integers: the parity of the number of
      half-circles of 2^63 that fit in their difference. */
  lemma BeforeIsHalfCircleParity(a: int, b: int)
    ensures VtimeBefore(Wrap(a), Wrap(b)) <==> (a - b) / TWO63 % 2 == 1
  {
    WrapDifference(a, b);
    var d := a - b;
    var k := d / TWO63;
    assert d == TWO63 * k + d % TWO63;
    var j := k / 2;
    assert k == 2 * j + k % 2;
    assert d == TWO64 * j + (TWO63 * (k % 2) + d % TWO63);
    ModOfSum(j, TWO63 * (k % 2) + d % TWO63);
  }

  /** On integers less than half a circle apart the comparison of words is integer `<`. */
  lemma BeforeIsLess(a: int, b: int)
    requires -TWO63 <= a - b < TWO63
    ensures VtimeBefore(Wrap(a), Wrap(b)) <==> a < b
  {
    BeforeIsHalfCircleParity(a, b);
  }

  /** The signed difference of the words of two integers less than half a circle apart is their difference. */
  lemma SignedDifference(a: int, b: int)
    requires -TWO63 <= a - b < TWO63
    ensures AsSigned(Wrap(Wrap(a) - Wrap(b))) == a - b
  {
    WrapDifference(a, b);
    if a - b < 0 {
      ModOfSum(-1, a - b + TWO64);
    }
  }

  lemma ModOfSum(j: int, r: int)
    requires 0 <= r < TWO64
    ensures (TWO64 * j + r) % TWO64 == r
  {
  }

  lemma WrapDifference(a: int, b: int)
    ensures Wrap(Wrap(a) - Wrap(b)) == Wrap(a - b)
  {
    WrapOfShifted(a - b, Wrap(a) - Wrap(b), b / TWO64 - a / TWO64);
  }

  /** Integers a whole number of circles apart are stored as the same word. */
  lemma WrapOfShifted(x: int, y: int, k: int)
    requires y == x + k * TWO64
    ensures Wrap(y) == Wrap(x)
  {
    assert y == TWO64 * (x / TWO64 + k) + x % TWO64;
    ModOfSum(x / TWO64 + k, x % TWO64);
  }

  lemma WrapOfSum(a: int, b: int)
    ensures Wrap(Wrap(a) + b) == Wrap(a + b)
    ensures Wrap(Wrap(a) - b) == Wrap(a - b)
  {
    WrapOfShifted(a + b, Wrap(a) + b, -(a / TWO64));
    WrapOfShifted(a - b, Wrap(a) - b, -(a / TWO64));
  }
}
