/** What the truncated exponential of internal/pricer/pricer.go computes: the exact input at which it
    starts to saturate, its distance from the degree-4 Taylor polynomial below that, and monotonicity
    over the whole signed range, saturation included. */
module Taylor {
  import opened Words
  import opened Pricer

  // ----- order -----

  lemma HornerStepMono(x: u64, y: u64, i: nat, p: u64, q: u64)
    requires x <= y && p <= q
    requires 0 < i && i * ONE_IN_BIPS <= MAX_U64
    ensures HornerStep(x, i, p) <= HornerStep(y, i, q)
  {
    MulMono(x, y, p);
    MulMono(p, q, y);
    DivMono(SaturatingUMul(p, x), SaturatingUMul(q, y), i * ONE_IN_BIPS);
  }

  lemma {:induction false} HornerMono(x: u64, y: u64, i: nat, p: u64, q: u64)
    requires x <= y && p <= q
    requires i * ONE_IN_BIPS <= MAX_U64
    ensures Horner(x, i, p) <= Horner(y, i, q)
    decreases i
  {
    if i > 0 {
      HornerStepMono(x, y, i, p, q);
      HornerMono(x, y, i - 1, HornerStep(x, i, p), HornerStep(y, i, q));
    }
  }

  lemma ExpUMono(x: u64, y: u64, accuracy: nat)
    requires x <= y <= MAX_I64 + 1
    requires 0 < accuracy && accuracy * ONE_IN_BIPS <= MAX_U64
    ensures ExpU(x, accuracy) <= ExpU(y, accuracy)
  {
    DivMono(x, y, accuracy);
    DivNat(x, accuracy);
    DivNat(y, accuracy);
    HornerMono(x, y, accuracy - 1, ONE_IN_BIPS + x / accuracy, ONE_IN_BIPS + y / accuracy);
  }

  /** A reciprocal in bips is at most one and falls as its divisor grows. */
  lemma Reciprocal(p: nat, q: nat)
    requires ONE_IN_BIPS <= p <= q
    ensures 0 <= ONE_IN_BIPS * ONE_IN_BIPS / q <= ONE_IN_BIPS * ONE_IN_BIPS / p <= ONE_IN_BIPS
  {
    var n := ONE_IN_BIPS * ONE_IN_BIPS;
    var a, b := n / p, n / q;
    assert a * p <= n < a * p + p;
    assert b * q <= n;
    MulMono(p, q, b);
    if b > a { MulMono(a + 1, b, p); }
    assert a <= ONE_IN_BIPS by { MulMono(ONE_IN_BIPS, p, a); }
  }

  /** The exponential is monotone over every signed input at every accuracy, saturated or not. */
  lemma ExpMonotone(x: i64, y: i64, accuracy: nat)
    requires x <= y
    requires accuracy * ONE_IN_BIPS <= MAX_U64
    ensures ApproxExp(x, accuracy) <= ApproxExp(y, accuracy)
  {
    if accuracy > 0 {
      if y < 0 {
        ExpUMono(Magnitude(y), Magnitude(x), accuracy);
        Reciprocal(ExpU(Magnitude(y), accuracy), ExpU(Magnitude(x), accuracy));
      } else if x < 0 {
        Reciprocal(ExpU(Magnitude(x), accuracy), ExpU(Magnitude(x), accuracy));
      } else {
        ExpUMono(x, y, accuracy);
      }
    }
  }

  /** At zero it is exactly one, so it is at least one above zero and at most one below. */
  lemma ExpAtZero(accuracy: nat)
    requires accuracy * ONE_IN_BIPS <= MAX_U64
    ensures ApproxExp(0, accuracy) == ONE_IN_BIPS
  {
    if accuracy > 0 { HornerAtZero(accuracy - 1); }
  }

  lemma StepAtZero(i: nat)
    requires 0 < i && i * ONE_IN_BIPS <= MAX_U64
    ensures HornerStep(0, i, ONE_IN_BIPS) == ONE_IN_BIPS
  {
    hide SaturatingUMul, SaturatingUAdd;
    assert SaturatingUMul(ONE_IN_BIPS, 0) == 0;
    DivNat(0, i * ONE_IN_BIPS);
  }

  lemma {:induction false} HornerAtZero(i: nat)
    requires i * ONE_IN_BIPS <= MAX_U64
    ensures Horner(0, i, ONE_IN_BIPS) == ONE_IN_BIPS
  {
    hide HornerStep;
    if i > 0 {
      StepAtZero(i);
      HornerAtZero(i - 1);
    }
  }

  /** The fee never falls below the minimum and never drops as the exponent or the minimum grows. */
  lemma FeeMonotone(m: nat, n: nat, x: i64, y: i64)
    requires x <= y && m <= n
    ensures m <= BaseFeeFromExponent(m, x) <= BaseFeeFromExponent(n, y)
  {
    FeeAboveFloor(m, x);
    FeeAboveFloor(n, y);
    if 0 < x {
      ExpMonotone(x, y, 4);
      ExpAtZero(4);
      ExpMonotone(0, x, 4);
      MulMono(m, n, ApproxExp(x, 4));
      MulMono(ApproxExp(x, 4), ApproxExp(y, 4), n);
      DivMono(m * ApproxExp(x, 4), n * ApproxExp(y, 4), ONE_IN_BIPS);
    }
  }

  lemma FeeAboveFloor(m: nat, x: i64)
    ensures m <= BaseFeeFromExponent(m, x)
  {
    if 0 < x {
      ExpAtZero(4);
      ExpMonotone(0, x, 4);
      MulMono(ONE_IN_BIPS, ApproxExp(x, 4), m);
      DivMono(m * ONE_IN_BIPS, m * ApproxExp(x, 4), ONE_IN_BIPS);
    }
  }

  // ----- where saturation starts -----

  /** The Horner value before index k is folded in, over unbounded integers. */
  ghost function Unbounded(x: nat, k: nat): (r: nat)
    requires k <= 3
    decreases 3 - k
  {
    if k == 3 then ONE_IN_BIPS + x / 4
    else
      DivNat(Unbounded(x, k + 1) * x, (k + 1) * ONE_IN_BIPS);
      ONE_IN_BIPS + Unbounded(x, k + 1) * x / ((k + 1) * ONE_IN_BIPS)
  }

  /** No intermediate product leaves 64 bits and the result fits the signed range. */
  ghost predicate Unsaturated(x: nat) {
    && Unbounded(x, 3) * x <= MAX_U64
    && Unbounded(x, 2) * x <= MAX_U64
    && Unbounded(x, 1) * x <= MAX_U64
    && Unbounded(x, 0) <= MAX_I64
  }

  /** The largest exponent the polynomial evaluates exactly: 1449.5491 in natural units. */
  const LAST_EXACT: nat := 14_495_491

  /** The unbounded values grow with the input, so one threshold separates the two regimes. */
  lemma {:induction false} UnboundedMono(x: nat, y: nat, k: nat)
    requires x <= y && k <= 3
    ensures Unbounded(x, k) <= Unbounded(y, k) && Unbounded(x, k) * x <= Unbounded(y, k) * y
    decreases 3 - k
  {
    if k == 3 {
      DivMono(x, y, 4);
    } else {
      UnboundedMono(x, y, k + 1);
      DivMono(Unbounded(x, k + 1) * x, Unbounded(y, k + 1) * y, (k + 1) * ONE_IN_BIPS);
    }
    MulMono(x, y, Unbounded(x, k));
    MulMono(Unbounded(x, k), Unbounded(y, k), y);
  }

  lemma UnsaturatedDownward(x: nat, y: nat)
    requires x <= y && Unsaturated(y)
    ensures Unsaturated(x)
  {
    UnboundedMono(x, y, 3);
    UnboundedMono(x, y, 2);
    UnboundedMono(x, y, 1);
    UnboundedMono(x, y, 0);
  }

  lemma SaturationThreshold(x: nat)
    ensures Unsaturated(x) <==> x <= LAST_EXACT
  {
    assert Unsaturated(LAST_EXACT) by {
      assert Unbounded(LAST_EXACT, 3) == 3_633_872;
      assert Unbounded(LAST_EXACT, 2) == 1_755_835_295;
      assert Unbounded(LAST_EXACT, 1) == 1_272_584_745_807;
      assert Unbounded(LAST_EXACT, 0) == 1_844_674_072_968_265;
    }
    assert !Unsaturated(LAST_EXACT + 1) by {
      assert Unbounded(LAST_EXACT + 1, 3) == 3_633_873;
      assert Unbounded(LAST_EXACT + 1, 2) == 1_755_835_900;
      assert Unbounded(LAST_EXACT + 1, 1) == 1_272_585_272_088;
    }
    if x <= LAST_EXACT {
      UnsaturatedDownward(x, LAST_EXACT);
    } else if Unsaturated(x) {
      UnsaturatedDownward(LAST_EXACT + 1, x);
    }
  }

  /** The largest value the saturating scheme gives: one more than the largest word over 10000. */
  const CEILING: nat := 1_844_674_407_380_955

  lemma LastStepCut(x: u64, r: u64)
    ensures HornerStep(x, 1, r) <= CEILING
    ensures r * x > MAX_U64 ==> HornerStep(x, 1, r) == CEILING
  {
    hide SaturatingUMul, SaturatingUAdd;
    DivMono(SaturatingUMul(r, x), MAX_U64, ONE_IN_BIPS);
    assert MAX_U64 / ONE_IN_BIPS == CEILING - ONE_IN_BIPS;
  }

  lemma ExpCeiling(x: nat)
    requires x <= MAX_I64
    ensures ApproxExp(x, 4) <= CEILING
  {
    hide HornerStep, ApproxExp;
    DivNat(x, 4);
    var r3: u64 := ONE_IN_BIPS + x / 4;
    var r2 := HornerStep(x, 3, r3);
    var r1 := HornerStep(x, 2, r2);
    LastStepCut(x, r1);
    UnrollHorner(x, r3, r2, r1, HornerStep(x, 1, r1));
  }

  lemma FirstCut()
    ensures ApproxExp(LAST_EXACT + 1, 4) == CEILING < Unbounded(LAST_EXACT + 1, 0)
  {
    var x := LAST_EXACT + 1;
    assert Unbounded(x, 3) == 3_633_873;
    assert Unbounded(x, 2) == 1_755_835_900;
    assert Unbounded(x, 1) == 1_272_585_272_088;
    assert Unbounded(x, 0) == 1_844_674_963_096_942;
    UnrollStep(x, 3);
    UnrollStep(x, 2);
    LastStepCut(x, Unbounded(x, 1));
    hide HornerStep, ApproxExp, Unbounded;
    UnrollHorner(x, Unbounded(x, 3), Unbounded(x, 2), Unbounded(x, 1), CEILING);
  }

  /** The saturating computation is exact up to the threshold; above it every result is the same ceiling, below
      the value it stands for. */
  lemma SaturatesExactlyAbove(x: nat)
    requires x <= MAX_I64
    ensures x <= LAST_EXACT ==> ApproxExp(x, 4) == Unbounded(x, 0)
    ensures x > LAST_EXACT ==> ApproxExp(x, 4) == CEILING < Unbounded(x, 0)
  {
    hide ApproxExp, Unbounded, Unsaturated;
    SaturationThreshold(x);
    if x <= LAST_EXACT {
      UnrollExp(x);
    } else {
      FirstCut();
      ExpCeiling(x);
      ExpMonotone(LAST_EXACT + 1, x, 4);
      UnboundedMono(LAST_EXACT + 1, x, 0);
    }
  }

  // ----- distance from the polynomial -----

  ghost function Taylor4(y: real): real {
    1.0 + y + y * y / 2.0 + y * y * y / 6.0 + y * y * y * y / 24.0
  }

  ghost function Lost(y: real): real {
    1.0 + y + y * y / 2.0 + y * y * y / 6.0
  }

  lemma Cancel(a: real, b: real, d: real)
    requires 0.0 < d
    ensures a * d <= b * d ==> a <= b
    ensures a * d < b * d ==> a < b
  {
    if a > b { assert (a - b) * d > 0.0; }
  }

  lemma RealProduct(a: nat, b: nat)
    ensures (a * b) as real == a as real * b as real
  {
  }

  /** Truncating division, read against the exact quotient t. */
  lemma FloorBounds(p: nat, d: nat, t: real)
    requires d > 0 && t * d as real == p as real
    ensures (p / d) as real <= t < (p / d) as real + 1.0
  {
    DivNat(p, d);
    QuotientBounds(p, d, p / d);
    FloorBetween(p, d, p / d, t);
  }

  lemma FloorBetween(p: nat, d: nat, q: nat, t: real)
    requires d > 0 && t * d as real == p as real && q * d <= p < (q + 1) * d
    ensures q as real <= t < q as real + 1.0
  {
    var a, b: nat := q * d, (q + 1) * d;
    assert a as real <= p as real < b as real;
    RealProduct(q, d);
    RealProduct(q + 1, d);
    DividedThrough(q, d, t);
  }

  lemma QuotientBounds(p: nat, d: nat, q: nat)
    requires d > 0 && q == p / d
    ensures q * d <= p < (q + 1) * d
  {
    assert p == d * (p / d) + p % d;
    assert (q + 1) * d == q * d + d;
  }

  lemma DividedThrough(q: nat, d: nat, t: real)
    requires d > 0
    requires q as real * d as real <= t * d as real < (q + 1) as real * d as real
    ensures q as real <= t < (q + 1) as real
  {
    Cancel(q as real, t, d as real);
    Cancel(t, (q + 1) as real, d as real);
  }

  /** The exact Horner value h exceeds the computed one by less than e bips. */
  ghost predicate Within(h: real, r: nat, e: real) { 0.0 <= h - r as real < e }

  /** The integer quotient of a Horner step, read against the real one; z is the exponent over k. */
  lemma QuotientFloor(r: nat, x: nat, k: nat, z: real)
    requires 1 <= k && x as real == z * (k * ONE_IN_BIPS) as real
    ensures (r * x / (k * ONE_IN_BIPS)) as real <= r as real * z < (r * x / (k * ONE_IN_BIPS)) as real + 1.0
  {
    var d := (k * ONE_IN_BIPS) as real;
    RealProduct(r, x);
    assert r as real * (z * d) == r as real * z * d;
    FloorBounds(r * x, k * ONE_IN_BIPS, r as real * z);
  }

  /** The loss of a step, over the reals. */
  lemma LossArithmetic(h: real, r: real, e: real, z: real, q: real)
    requires 0.0 <= z && 0.0 <= h - r < e
    requires q <= r * z < q + 1.0
    ensures 0.0 <= h * z - q < 1.0 + e * z
  {
    assert (h - r) * z >= 0.0;
    assert (r + e - h) * z >= 0.0;
  }

  /** Truncation: r is 10000 bips plus the integer part of t. */
  ghost predicate Truncates(r: nat, t: real) { r as real - 10000.0 <= t < r as real - 9999.0 }

  ghost function Times(a: real, b: real): real { a * b }

  /** One Horner step keeps the computed value below the real one and loses less than one more bip
      than the scaled earlier loss. */
  lemma StepLoss(h: real, r: nat, e: real, z: real, r': nat)
    requires 0.0 <= z && Within(h, r, e) && Truncates(r', Times(r as real, z))
    ensures Within(10000.0 + Times(h, z), r', 1.0 + Times(e, z))
  {
    LossArithmetic(h, r as real, e, z, r' as real - 10000.0);
  }

  lemma HornerTruncates(x: nat, k: nat, z: real)
    requires 1 <= k <= 3 && x as real == z * (k * ONE_IN_BIPS) as real
    ensures Truncates(Unbounded(x, k - 1), Times(Unbounded(x, k) as real, z))
  {
    hide Unsaturated, HornerStep, Unbounded;
    UnboundedStep(x, k);
    QuotientFloor(Unbounded(x, k), x, k, z);
  }

  lemma UnboundedStep(x: nat, k: nat)
    requires 1 <= k <= 3
    ensures Unbounded(x, k - 1) == ONE_IN_BIPS + Unbounded(x, k) * x / (k * ONE_IN_BIPS)
  {
  }

  /** Three truncated steps against the real Horner scheme, which is the Taylor polynomial. */
  lemma SchemeLoss(y: real, r3: nat, r2: nat, r1: nat, r0: nat)
    requires 0.0 <= y
    requires Truncates(r3, 2500.0 * y) && Truncates(r2, Times(r3 as real, y / 3.0))
    requires Truncates(r1, Times(r2 as real, y / 2.0)) && Truncates(r0, Times(r1 as real, y))
    ensures Within(10000.0 * Taylor4(y), r0, Lost(y))
  {
    hide Times, Taylor4, Lost;
    var h3 := 10000.0 + 2500.0 * y;
    StepLoss(h3, r3, 1.0, y / 3.0, r2);
    var h2, e2 := 10000.0 + Times(h3, y / 3.0), 1.0 + Times(1.0, y / 3.0);
    StepLoss(h2, r2, e2, y / 2.0, r1);
    var h1, e1 := 10000.0 + Times(h2, y / 2.0), 1.0 + Times(e2, y / 2.0);
    StepLoss(h1, r1, e1, y, r0);
    HornerIsTaylor(y, h3, h2, h1, e2, e1);
  }

  /** Below the threshold the result is at most 10000 times the degree-4 Taylor polynomial of the
      exponent y = x / 10000, and short of it by less than 1 + y + y^2/2 + y^3/6 bips. */
  lemma TaylorBound(x: nat, y: real)
    requires x <= LAST_EXACT && x as real == 10000.0 * y
    ensures 10000.0 * Taylor4(y) - Lost(y) < ApproxExp(x, 4) as real <= 10000.0 * Taylor4(y)
  {
    hide Times, Taylor4, Lost, Unbounded, Unsaturated, ApproxExp;
    SaturationThreshold(x);
    UnrollExp(x);
    FirstTerm(x, y);
    HornerTruncates(x, 3, y / 3.0);
    HornerTruncates(x, 2, y / 2.0);
    HornerTruncates(x, 1, y);
    SchemeLoss(y, Unbounded(x, 3), Unbounded(x, 2), Unbounded(x, 1), Unbounded(x, 0));
  }

  lemma FirstTerm(x: nat, y: real)
    requires x as real == 10000.0 * y
    ensures Truncates(Unbounded(x, 3), 2500.0 * y)
  {
    FloorBounds(x, 4, 2500.0 * y);
  }

  lemma UnrollExp(x: nat)
    requires x <= MAX_I64 && Unsaturated(x)
    ensures ApproxExp(x, 4) == Unbounded(x, 0)
  {
    Fits(x, 3);
    Fits(x, 2);
    Fits(x, 1);
    UnrollStep(x, 3);
    UnrollStep(x, 2);
    UnrollStep(x, 1);
    UnrollHorner(x, Unbounded(x, 3), Unbounded(x, 2), Unbounded(x, 1), Unbounded(x, 0));
  }

  lemma UnrollHorner(x: nat, r3: u64, r2: u64, r1: u64, r0: u64)
    requires x <= MAX_I64 && r0 <= MAX_I64 && r3 == ONE_IN_BIPS + x / 4
    requires HornerStep(x, 3, r3) == r2 && HornerStep(x, 2, r2) == r1 && HornerStep(x, 1, r1) == r0
    ensures ApproxExp(x, 4) == r0
  {
    assert ExpU(x, 4) == Horner(x, 3, r3);
    assert Horner(x, 3, r3) == Horner(x, 2, r2);
    assert Horner(x, 2, r2) == Horner(x, 1, r1);
    assert Horner(x, 1, r1) == Horner(x, 0, r0);
  }

  lemma Fits(x: nat, k: nat)
    requires 1 <= k <= 3 && Unbounded(x, k) * x <= MAX_U64
    ensures Unbounded(x, k) <= MAX_U64
  {
    if x == 0 {
      assert Unbounded(0, 3) == Unbounded(0, 2) == Unbounded(0, 1) == ONE_IN_BIPS;
    } else {
      MulMono(1, x, Unbounded(x, k));
    }
  }

  lemma UnrollStep(x: nat, k: nat)
    requires 1 <= k <= 3 && x <= MAX_I64
    requires Unbounded(x, k) <= MAX_U64 && Unbounded(x, k) * x <= MAX_U64 && Unbounded(x, k - 1) <= MAX_U64
    ensures HornerStep(x, k, Unbounded(x, k)) == Unbounded(x, k - 1)
  {
  }

  lemma HornerIsTaylor(y: real, h3: real, h2: real, h1: real, e2: real, e1: real)
    requires h3 == 10000.0 + 2500.0 * y
    requires h2 == 10000.0 + Times(h3, y / 3.0) && h1 == 10000.0 + Times(h2, y / 2.0)
    requires e2 == 1.0 + Times(1.0, y / 3.0) && e1 == 1.0 + Times(e2, y / 2.0)
    ensures 10000.0 + Times(h1, y) == 10000.0 * Taylor4(y)
    ensures 1.0 + Times(e1, y) == Lost(y)
  {
    var y2 := y * y;
    var y3 := y2 * y;
    assert h3 * (y / 3.0) == (10000.0 * y + 2500.0 * y2) / 3.0;
    assert h2 * (y / 2.0) == (10000.0 * y + (10000.0 * y2 + 2500.0 * y3) / 3.0) / 2.0;
    assert h1 * y == 10000.0 * y + 5000.0 * y2 + (10000.0 * y3 + 2500.0 * (y3 * y)) / 6.0;
    assert e2 * (y / 2.0) == (y + y2 / 3.0) / 2.0;
    assert e1 * y == y + y2 / 2.0 + y3 / 6.0;
  }
}
