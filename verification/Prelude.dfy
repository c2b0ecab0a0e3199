/** Small definitions shared by the whole model: optional values, Go's error results,
    64-bit wrap-around, and counting the entries of a finite map. */
module Prelude {

  datatype Option<+T> = None | Some(value: T)

  /** A Go `(T, error)` pair in which the error case carries no value. */
  datatype Result<+T, +E> = Ok(value: T) | Err(error: E)

  const TWO_TO_63: int := 0x8000_0000_0000_0000
  const TWO_TO_64: int := 0x1_0000_0000_0000_0000

  const NANOS_PER_MILLI: int := 1_000_000
  const NANOS_PER_SECOND: int := 1_000_000_000

  /** The value a 64-bit two's complement variable holds after x was computed exactly. */
  function Wrap64(x: int): int {
    (x + TWO_TO_63) % TWO_TO_64 - TWO_TO_63
  }

  function Max(x: int, y: int): int { if x < y then y else x }

  /** 1 if it is so, for counting. */
  function One(b: bool): nat { if b then 1 else 0 }

  function Min(x: int, y: int): int { if x < y then x else y }

  /** Go's integer division and float-to-int conversion both truncate toward zero. */
  function TruncDiv(x: int, y: int): int
    requires y > 0
  {
    if x >= 0 then x / y else -((-x) / y)
  }

  lemma SubsetSize<T>(a: set<T>, b: set<T>)
    requires a <= b
    ensures |a| <= |b|
  {
    assert b == a + (b - a);
    assert |b| == |a| + |b - a|;
  }

  /** Any integer wraps to the one value in int64 range that differs from it by a multiple of 2^64. */
  lemma WrapsIntoRange(x: int)
    ensures -9_223_372_036_854_775_808 <= Wrap64(x) <= 9_223_372_036_854_775_807
    ensures (x - Wrap64(x)) % 18_446_744_073_709_551_616 == 0
  {
    var q := (x + TWO_TO_63) / TWO_TO_64;
    assert x - Wrap64(x) == q * TWO_TO_64;
  }

  /** The remainder has the sign of the dividend and is smaller than the divisor. */
  lemma TruncatesTowardZero(x: int, y: int)
    requires y > 0
    ensures var r := x - TruncDiv(x, y) * y; -y < r < y && (x >= 0 ==> r >= 0) && (x <= 0 ==> r <= 0)
  {
  }

  // ---------- decimal digits ----------

  predicate IsDigit(c: char) { '0' <= c <= '9' }

  function Digit(c: char): nat
    requires IsDigit(c)
  {
    (c - '0') as int
  }

  function Decimal(n: nat): string {
    var last := [('0' as int + n % 10) as char];
    if n < 10 then last else Decimal(n / 10) + last
  }

  lemma {:induction false} DecimalDigits(n: nat)
    ensures Decimal(n) != [] && forall c <- Decimal(n) :: IsDigit(c)
  {
    if n >= 10 {
      DecimalDigits(n / 10);
    }
  }
}
