/** Machine words: the unsigned 64-bit and signed 64-bit integers of the collector, with the saturating
    operations of internal/pricer/pricer.go written over wrapping hardware arithmetic, and the optional
    values that stand for SQL NULLs and absent answers. */
module Words {

  datatype Option<+T> = None | Some(value: T)

  const TWO_64: int := 0x1_0000_0000_0000_0000
  const MAX_U64: int := 0xFFFF_FFFF_FFFF_FFFF
  const MAX_I64: int := 0x7FFF_FFFF_FFFF_FFFF
  const MIN_I64: int := -0x8000_0000_0000_0000

  type u64 = x: int | 0 <= x <= MAX_U64
  type i64 = x: int | MIN_I64 <= x <= MAX_I64

  function Min(a: int, b: int): int { if a < b then a else b }
  function Max(a: int, b: int): int { if a < b then b else a }
  function Magnitude(a: int): nat { if a < 0 then -a else a }
  function Dist(a: int, b: int): nat { if a < b then b - a else a - b }

  /** What a 64-bit register keeps of a mathematical integer. */
  function WrapU64(x: int): u64 { x % TWO_64 }

  /** The same register read as a two's complement number. */
  function WrapI64(x: int): i64 {
    var w := x % TWO_64;
    if w <= MAX_I64 then w else w - TWO_64
  }

  /** The overflow test of the source looks at the wrapped sum; it means the sum is cut at the top. */
  function SaturatingUAdd(a: u64, b: u64): (r: u64)
    ensures r == Min(a + b, MAX_U64)
  {
    var sum := WrapU64(a + b);
    assert a + b >= TWO_64 ==> sum == a + b - TWO_64;
    if sum < a then MAX_U64 else sum
  }

  function SaturatingUSub(a: u64, b: u64): (r: u64)
    ensures r == Max(a - b, 0)
  {
    if b >= a then 0 else a - b
  }

  /** The test `a > MAX / b` never multiplies; it is exactly "the product does not fit". */
  function SaturatingUMul(a: u64, b: u64): (r: u64)
    ensures r == Min(a * b, MAX_U64)
  {
    if a == 0 || b == 0 then
      assert a * b == 0;
      0
    else
      QuotientTest(a, b, MAX_U64);
      if a > MAX_U64 / b then MAX_U64 else
        assert 0 <= a * b;
        a * b
  }

  lemma QuotientTest(a: nat, b: nat, m: nat)
    requires b > 0
    ensures a > m / b <==> a * b > m
  {
    var q := m / b;
    assert q * b <= m < q * b + b;
    if a > q {
      assert a * b >= (q + 1) * b;
    } else {
      assert a * b <= q * b;
    }
  }

  /** Bips are signed; the wrapped signed sum is inspected after the fact. */
  function SaturatingAddBips(a: i64, b: i64): (r: i64)
    ensures r == Max(MIN_I64, Min(a + b, MAX_I64))
  {
    var sum := WrapI64(a + b);
    assert a + b > MAX_I64 ==> sum == a + b - TWO_64;
    assert a + b < MIN_I64 ==> sum == a + b + TWO_64;
    if b > 0 && sum < a then MAX_I64
    else if b < 0 && sum > a then MIN_I64
    else sum
  }

  function SaturatingCastToBips(v: u64): (r: i64)
    ensures r == Min(v, MAX_I64)
  {
    if v > MAX_I64 then MAX_I64 else v
  }

  // ----- order facts used throughout -----

  lemma MulMono(a: nat, b: nat, c: nat)
    requires a <= b
    ensures a * c <= b * c && c * a <= c * b
  {
  }

  lemma DivMono(a: nat, b: nat, d: nat)
    requires a <= b && d > 0
    ensures a / d <= b / d
  {
    var p, q := a / d, b / d;
    if q < p {
      assert q + 1 <= p;
      MulMono(q + 1, p, d);
    }
  }

  lemma DivNat(a: nat, d: nat)
    requires d > 0
    ensures 0 <= a / d <= a
  {
    var q := a / d;
    assert q * d <= a;
    MulMono(1, d, q);
  }
}
