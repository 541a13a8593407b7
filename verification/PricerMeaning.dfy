/** What the pricer's numbers are, in terms of its inputs: backlogs drained and filled, exponents as quotients and
    sums, and the fee as the truncated exponential of internal/pricer/pricer.go. */
module PricerMeaning {
  import opened Words
  import opened Pricer
  import opened Taylor

  // ----- exponents -----

  /** r is the integer quotient of n and d. */
  ghost predicate Quotient(r: int, n: nat, d: nat) { r * d <= n < (r + 1) * d }

  lemma QuotientHolds(n: nat, d: nat)
    requires d > 0
    ensures Quotient(n / d, n, d)
  {
    assert n == d * (n / d) + n % d;
    assert (n / d + 1) * d == n / d * d + d;
  }

  /** A constraint contributes its backlog, in bips and cut at the signed maximum, over the gas its window may hold. */
  lemma ConstraintBipsMeans(c: Constraint)
    ensures c.backlog == 0 || c.window == 0 || c.target == 0 ==> ConstraintBips(c) == 0
    ensures c.backlog > 0 && c.window > 0 && c.target > 0 ==>
              Quotient(ConstraintBips(c), Min(c.backlog * ONE_IN_BIPS, MAX_I64), Max(Min(c.window * c.target, MAX_I64), 1))
  {
    if c.backlog > 0 && c.window > 0 && c.target > 0 {
      MulMono(1, c.window, c.target);
      QuotientHolds(Min(c.backlog * ONE_IN_BIPS, MAX_I64), Min(c.window * c.target, MAX_I64));
    }
  }

  /** The legacy exponent: the backlog above the tolerance, whose threshold wraps, over the inertia. */
  lemma LegacyBipsMeans(l: Legacy)
    ensures var threshold, inertia := WrapU64(l.tolerance * l.speedLimit), Min(l.inertia * l.speedLimit, MAX_I64);
            if l.backlog > threshold && l.inertia > 0 && l.speedLimit > 0
            then inertia > 0 && Quotient(LegacyBips(l), Min((l.backlog - threshold) * ONE_IN_BIPS, MAX_I64), Max(inertia, 1))
            else LegacyBips(l) == 0
  {
    var threshold := WrapU64(l.tolerance * l.speedLimit);
    if l.backlog > threshold && l.inertia > 0 && l.speedLimit > 0 {
      MulMono(1, l.inertia, l.speedLimit);
      QuotientHolds(Min((l.backlog - threshold) * ONE_IN_BIPS, MAX_I64), Min(l.inertia * l.speedLimit, MAX_I64));
    }
  }

  ghost function Total(per: seq<i64>): int
    decreases |per|
  {
    if per == [] then 0 else Total(per[..|per| - 1]) + per[|per| - 1]
  }

  /** Saturating term by term is saturating once, for terms that are not negative. */
  lemma {:induction false} SumBipsMeans(per: seq<i64>)
    requires forall i :: 0 <= i < |per| ==> per[i] >= 0
    ensures SumBips(per) == Min(Total(per), MAX_I64) && Total(per) >= 0
    decreases |per|
  {
    if per != [] { SumBipsMeans(per[..|per| - 1]); }
  }

  // ----- the fee -----

  /** Minimum times the degree-4 Taylor polynomial at y, short of it by the loss of the truncating divisions. */
  ghost predicate NearTaylor(fee: nat, minimum: nat, y: real) {
    && 10000.0 * fee as real <= minimum as real * (10000.0 * Taylor4(y))
    && minimum as real * (10000.0 * Taylor4(y) - Lost(y)) - 10000.0 < 10000.0 * fee as real
  }

  /** The fee an exponent gives: the minimum at or below zero; minimum times the degree-4 Taylor polynomial, short of it by
      the loss of the truncating divisions, up to the last exact exponent; minimum times one ceiling above it. */
  ghost predicate IsFee(fee: nat, minimum: nat, e: i64) {
    if e <= 0 then fee == minimum
    else if e <= LAST_EXACT then NearTaylor(fee, minimum, e as real / 10000.0)
    else Quotient(fee, minimum * CEILING, ONE_IN_BIPS)
  }

  lemma RealProducts(m: nat, a: nat, lo: real, hi: real)
    requires lo < a as real <= hi
    ensures m as real * lo <= (m * a) as real <= m as real * hi
  {
    RealProduct(m, a);
    NotNegative(m as real, hi - a as real);
    NotNegative(m as real, a as real - lo);
    assert m as real * hi == m as real * a as real + m as real * (hi - a as real);
    assert m as real * lo == m as real * a as real - m as real * (a as real - lo);
  }

  lemma NotNegative(a: real, b: real)
    requires a >= 0.0 && b >= 0.0
    ensures a * b >= 0.0
  {
  }

  lemma FeeBetween(fee: nat, m: nat, a: nat, lo: real, hi: real)
    requires Quotient(fee, m * a, ONE_IN_BIPS) && lo < a as real <= hi
    ensures 10000.0 * fee as real <= m as real * hi
    ensures m as real * lo - 10000.0 < 10000.0 * fee as real
  {
    hide Quotient;
    RealProducts(m, a, lo, hi);
    var p: nat := m * a;
    QuotientAsReal(fee, p);
  }

  lemma QuotientAsReal(fee: nat, p: nat)
    requires Quotient(fee, p, ONE_IN_BIPS)
    ensures 10000.0 * fee as real <= p as real < 10000.0 * fee as real + 10000.0
  {
    assert fee * ONE_IN_BIPS <= p < fee * ONE_IN_BIPS + ONE_IN_BIPS;
  }

  /** The fee of the source at every exponent. */
  lemma FeeMeans(minimum: nat, e: i64)
    ensures IsFee(BaseFeeFromExponent(minimum, e), minimum, e)
  {
    if e > 0 {
      var a: nat := ApproxExpIsPositive(e);
      FeeQuotient(minimum, e, a);
      hide ApproxExp, NearTaylor, Unbounded, BaseFeeFromExponent, Quotient;
      SaturatesExactlyAbove(e);
      if e <= LAST_EXACT {
        FeeNear(BaseFeeFromExponent(minimum, e), minimum, e, a, e as real / 10000.0);
      }
    } else {
      hide ApproxExp;
    }
  }

  lemma FeeNear(fee: nat, minimum: nat, e: i64, a: nat, y: real)
    requires 0 < e <= LAST_EXACT && a == ApproxExp(e, 4) && y == e as real / 10000.0
    requires Quotient(fee, minimum * a, ONE_IN_BIPS)
    ensures NearTaylor(fee, minimum, y)
  {
    hide ApproxExp, Taylor4, Lost, Quotient;
    assert e as real == 10000.0 * y;
    TaylorBound(e, y);
    FeeBetween(fee, minimum, a, 10000.0 * Taylor4(y) - Lost(y), 10000.0 * Taylor4(y));
  }

  lemma FeeQuotient(minimum: nat, e: i64, a: nat)
    requires e > 0 && a == ApproxExp(e, 4)
    ensures Quotient(BaseFeeFromExponent(minimum, e), minimum * a, ONE_IN_BIPS)
  {
    hide ApproxExp;
    QuotientHolds(minimum * a, ONE_IN_BIPS);
  }

  lemma ApproxExpIsPositive(e: i64) returns (a: nat)
    requires e > 0
    ensures a == ApproxExp(e, 4)
  {
    ExpAtZero(4);
    ExpMonotone(0, e, 4);
    a := ApproxExp(e, 4);
  }

  // ----- one step -----

  /** Draining takes away the target rate over the elapsed time, down to zero, whatever saturates on the way. */
  lemma DrainMeans(backlog: u64, dt: u64, target: u64)
    ensures Drain(backlog, dt, target) == Max(backlog - dt * target, 0)
  {
  }

  /** What a step prices in the constraint model: each drained backlog gives its quotient, the exponent is their sum cut at
      the signed maximum, and the fee is that of the exponent. */
  lemma StepMeans(s: State, dt: u64)
    requires s.constraints != []
    ensures var t, p := StepState(s, dt), StepPrice(s, dt);
            && |t.constraints| == |p.per| == |s.constraints| && t.minBaseFee == s.minBaseFee && t.legacy == s.legacy
            && (forall i :: 0 <= i < |s.constraints| ==>
                 && t.constraints[i] == s.constraints[i].(backlog := t.constraints[i].backlog)
                 && t.constraints[i].backlog == Max(s.constraints[i].backlog - dt * s.constraints[i].target, 0)
                 && p.per[i] == ConstraintBips(t.constraints[i]))
            && p.exponent == Min(Total(p.per), MAX_I64)
            && IsFee(p.fee, s.minBaseFee, p.exponent)
  {
    hide IsFee, ConstraintBips, Drain;
    var p := StepPrice(s, dt);
    forall i | 0 <= i < |s.constraints| ensures Drain(s.constraints[i].backlog, dt, s.constraints[i].target)
        == Max(s.constraints[i].backlog - dt * s.constraints[i].target, 0)
    {
      DrainMeans(s.constraints[i].backlog, dt, s.constraints[i].target);
    }
    SumBipsMeans(p.per);
    FeeMeans(s.minBaseFee, p.exponent);
  }

  /** And in the legacy model. */
  lemma StepLegacyMeans(s: State, dt: u64)
    requires s.constraints == []
    ensures var t, p := StepState(s, dt), StepPrice(s, dt);
            if s.legacy.None? then t == s && p == Priced(s.minBaseFee, 0, [])
            else
              var l := s.legacy.value;
              && t == s.(legacy := Some(l.(backlog := Max(l.backlog - dt * l.speedLimit, 0))))
              && p.exponent == LegacyBips(t.legacy.value) && p.per == [p.exponent]
              && IsFee(p.fee, s.minBaseFee, p.exponent)
  {
    hide IsFee, LegacyBips, Drain;
    if s.legacy.Some? {
      DrainMeans(s.legacy.value.backlog, dt, s.legacy.value.speedLimit);
      FeeMeans(s.minBaseFee, StepPrice(s, dt).exponent);
    }
  }

  // ----- one block of a replay -----

  /** Seconds since the block before, none for the first one and none when its time does not advance. */
  ghost function Since(prev: u64, b: Block): u64 { if prev == 0 || b.timestamp <= prev then 0 else b.timestamp - prev }

  /** What a block leaves in a backlog: drained for the time since the block before it, filled by its gas up to the largest
      word, and replaced by the sampled value where there is one. */
  ghost function Left(backlog: u64, target: u64, prev: u64, b: Block, sampled: Option<u64>): int {
    if sampled.Some? then sampled.value
    else
      Min(Max(backlog - Since(prev, b) * target, 0) + b.gasUsed, MAX_U64)
  }

  ghost function Sample(anchor: Anchor, number: u64, i: nat): Option<u64> {
    match anchor(number)
    case Some(backlogs) => if i < |backlogs| then Some(backlogs[i]) else None
    case None => None
  }

  lemma BlockMeans(s: State, prev: u64, b: Block, anchor: Anchor)
    requires s.constraints != []
    ensures var t, r := AfterBlock(s, prev, b, anchor), OutcomeOf(s, prev, b, anchor);
            && |t.constraints| == |s.constraints| && t.minBaseFee == s.minBaseFee && t.legacy == s.legacy
            && (forall i :: 0 <= i < |s.constraints| ==>
                 && t.constraints[i] == s.constraints[i].(backlog := t.constraints[i].backlog)
                 && t.constraints[i].backlog ==
                    Left(s.constraints[i].backlog, s.constraints[i].target, prev, b, Sample(anchor, b.number, i)))
            && r.number == b.number && (r.anchored <==> anchor(b.number).Some?)
            && r.priced == StepPrice(s, Since(prev, b))
            && |r.backlogs| == |t.constraints| && forall i :: 0 <= i < |r.backlogs| ==> r.backlogs[i] == t.constraints[i].backlog
  {
    hide Drain;
    forall i | 0 <= i < |s.constraints| { DrainMeans(s.constraints[i].backlog, Elapsed(prev, b.timestamp), s.constraints[i].target); }
  }

  lemma LegacyBlockMeans(s: State, prev: u64, b: Block, anchor: Anchor)
    requires s.constraints == [] && s.legacy.Some?
    ensures var t, l := AfterBlock(s, prev, b, anchor), s.legacy.value;
            && t.legacy.Some? && t == s.(legacy := Some(l.(backlog := t.legacy.value.backlog)))
            && t.legacy.value.backlog == Left(l.backlog, l.speedLimit, prev, b, Sample(anchor, b.number, 0))
            && OutcomeOf(s, prev, b, anchor).backlogs == [t.legacy.value.backlog]
            && OutcomeOf(s, prev, b, anchor).priced == StepPrice(s, Since(prev, b))
  {
    DrainMeans(s.legacy.value.backlog, Elapsed(prev, b.timestamp), s.legacy.value.speedLimit);
  }
}
