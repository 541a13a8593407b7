/** Two replays of the same blocks: whatever backlogs they start from, they never move apart, and the
    one that starts higher stays higher in backlogs, exponents and predicted fees. Both models, every
    saturation, every anchor. */
module PricerOrder {
  import opened Words
  import opened Pricer
  import opened Taylor

  // ----- one word -----

  /** Draining and filling are cut at 0 and at the top; cutting never spreads two values. */
  lemma DrainClose(a: u64, b: u64, dt: u64, target: u64)
    ensures Dist(Drain(a, dt, target), Drain(b, dt, target)) <= Dist(a, b)
    ensures a <= b ==> Drain(a, dt, target) <= Drain(b, dt, target)
  {
  }

  lemma FillClose(a: u64, b: u64, gas: u64)
    ensures Dist(SaturatingUAdd(a, gas), SaturatingUAdd(b, gas)) <= Dist(a, b)
    ensures a <= b ==> SaturatingUAdd(a, gas) <= SaturatingUAdd(b, gas)
  {
  }

  // ----- states that differ in backlogs only -----

  predicate SameParams(c: Constraint, d: Constraint) { c.target == d.target && c.window == d.window }

  predicate SameLegacy(l: Legacy, m: Legacy) {
    l.speedLimit == m.speedLimit && l.inertia == m.inertia && l.tolerance == m.tolerance
  }

  ghost predicate SameShape(s: State, t: State) {
    && |s.constraints| == |t.constraints|
    && (forall i :: 0 <= i < |s.constraints| ==> SameParams(s.constraints[i], t.constraints[i]))
    && s.legacy.Some? == t.legacy.Some?
    && (s.legacy.Some? ==> SameLegacy(s.legacy.value, t.legacy.value))
    && s.minBaseFee == t.minBaseFee
  }

  /** One backlog per slot, pairwise. */
  ghost predicate Below(p: seq<u64>, q: seq<u64>) {
    |p| == |q| && forall i :: 0 <= i < |p| ==> p[i] <= q[i]
  }

  /** The pair (p', q') is nowhere further apart than the pair (p, q). */
  ghost predicate NoFurther(p': seq<u64>, q': seq<u64>, p: seq<u64>, q: seq<u64>) {
    && |p'| == |q'| == |p| == |q|
    && forall i :: 0 <= i < |p| ==> Dist(p'[i], q'[i]) <= Dist(p[i], q[i])
  }

  lemma SameShapeSlots(s: State, t: State)
    requires SameShape(s, t)
    ensures |s.Backlogs()| == |t.Backlogs()|
  {
  }

  // ----- one operation -----

  lemma StepClose(s: State, t: State, dt: u64)
    requires SameShape(s, t)
    ensures SameShape(StepState(s, dt), StepState(t, dt))
    ensures NoFurther(StepState(s, dt).Backlogs(), StepState(t, dt).Backlogs(), s.Backlogs(), t.Backlogs())
    ensures Below(s.Backlogs(), t.Backlogs()) ==> Below(StepState(s, dt).Backlogs(), StepState(t, dt).Backlogs())
  {
    hide Drain;
    forall a: u64, b: u64, target: u64 { DrainClose(a, b, dt, target); }
  }

  lemma AddGasClose(s: State, t: State, gas: u64)
    requires SameShape(s, t)
    ensures SameShape(GasAdded(s, gas), GasAdded(t, gas))
    ensures NoFurther(GasAdded(s, gas).Backlogs(), GasAdded(t, gas).Backlogs(), s.Backlogs(), t.Backlogs())
    ensures Below(s.Backlogs(), t.Backlogs()) ==> Below(GasAdded(s, gas).Backlogs(), GasAdded(t, gas).Backlogs())
  {
    hide SaturatingUAdd;
    forall a: u64, b: u64 { FillClose(a, b, gas); }
  }

  lemma AnchorClose(s: State, t: State, backlogs: seq<u64>)
    requires SameShape(s, t)
    ensures SameShape(BacklogsSet(s, backlogs), BacklogsSet(t, backlogs))
    ensures NoFurther(BacklogsSet(s, backlogs).Backlogs(), BacklogsSet(t, backlogs).Backlogs(), s.Backlogs(), t.Backlogs())
    ensures Below(s.Backlogs(), t.Backlogs()) ==> Below(BacklogsSet(s, backlogs).Backlogs(), BacklogsSet(t, backlogs).Backlogs())
  {
  }

  lemma NoFurtherTrans(a: seq<u64>, b: seq<u64>, c: seq<u64>, d: seq<u64>, e: seq<u64>, f: seq<u64>)
    requires NoFurther(a, b, c, d) && NoFurther(c, d, e, f)
    ensures NoFurther(a, b, e, f)
  {
  }

  lemma BlockClose(s: State, t: State, prev: u64, b: Block, anchor: Anchor)
    requires SameShape(s, t)
    ensures SameShape(AfterBlock(s, prev, b, anchor), AfterBlock(t, prev, b, anchor))
    ensures NoFurther(AfterBlock(s, prev, b, anchor).Backlogs(), AfterBlock(t, prev, b, anchor).Backlogs(),
                      s.Backlogs(), t.Backlogs())
    ensures Below(s.Backlogs(), t.Backlogs()) ==>
              Below(AfterBlock(s, prev, b, anchor).Backlogs(), AfterBlock(t, prev, b, anchor).Backlogs())
  {
    hide SameShape, NoFurther, Below, StepState, GasAdded, BacklogsSet, State.Backlogs;
    var dt := Elapsed(prev, b.timestamp);
    var s1, t1 := StepState(s, dt), StepState(t, dt);
    StepClose(s, t, dt);
    var s2, t2 := GasAdded(s1, b.gasUsed), GasAdded(t1, b.gasUsed);
    AddGasClose(s1, t1, b.gasUsed);
    NoFurtherTrans(s2.Backlogs(), t2.Backlogs(), s1.Backlogs(), t1.Backlogs(), s.Backlogs(), t.Backlogs());
    match anchor(b.number)
    case Some(backlogs) =>
      AnchorClose(s2, t2, backlogs);
      NoFurtherTrans(BacklogsSet(s2, backlogs).Backlogs(), BacklogsSet(t2, backlogs).Backlogs(),
                     s2.Backlogs(), t2.Backlogs(), s.Backlogs(), t.Backlogs());
    case None =>
  }

  // ----- what a step prices -----

  lemma ConstraintBipsMono(c: Constraint, d: Constraint)
    requires SameParams(c, d) && c.backlog <= d.backlog
    ensures ConstraintBips(c) <= ConstraintBips(d)
  {
    var divisor := SaturatingUMul(c.window, c.target);
    if c.backlog != 0 && divisor != 0 {
      MulMono(c.backlog, d.backlog, ONE_IN_BIPS);
      DivMono(NaturalToBips(c.backlog), NaturalToBips(d.backlog), SaturatingCastToBips(divisor));
    }
  }

  lemma LegacyBipsMono(l: Legacy, m: Legacy)
    requires SameLegacy(l, m) && l.backlog <= m.backlog
    ensures LegacyBips(l) <= LegacyBips(m)
  {
    var threshold := WrapU64(l.tolerance * l.speedLimit);
    var inertia := SaturatingCastToBips(SaturatingUMul(l.inertia, l.speedLimit));
    if l.backlog > threshold && inertia > 0 {
      MulMono(l.backlog - threshold, m.backlog - threshold, ONE_IN_BIPS);
      DivMono(NaturalToBips(l.backlog - threshold), NaturalToBips(m.backlog - threshold), inertia);
    }
  }

  ghost predicate BipsBelow(p: seq<i64>, q: seq<i64>) {
    |p| == |q| && forall i :: 0 <= i < |p| ==> p[i] <= q[i]
  }

  lemma {:induction false} SumBipsMono(p: seq<i64>, q: seq<i64>)
    requires BipsBelow(p, q)
    ensures SumBips(p) <= SumBips(q)
  {
    if p != [] {
      SumBipsMono(p[..|p| - 1], q[..|q| - 1]);
    }
  }

  ghost predicate PricedBelow(p: Priced, q: Priced) {
    p.fee <= q.fee && p.exponent <= q.exponent && BipsBelow(p.per, q.per)
  }

  /** Larger backlogs price higher: every per-constraint exponent, their saturating sum, and the fee. */
  lemma PriceMono(s: State, t: State, dt: u64)
    requires SameShape(s, t) && Below(s.Backlogs(), t.Backlogs())
    ensures PricedBelow(StepPrice(s, dt), StepPrice(t, dt))
  {
    hide BaseFeeFromExponent, ConstraintBips, LegacyBips, Drain;
    StepClose(s, t, dt);
    var s', t' := StepState(s, dt), StepState(t, dt);
    if !s.IsLegacy() {
      forall i | 0 <= i < |s'.constraints| ensures ConstraintBips(s'.constraints[i]) <= ConstraintBips(t'.constraints[i]) {
        assert s'.Backlogs()[i] <= t'.Backlogs()[i];
        ConstraintBipsMono(s'.constraints[i], t'.constraints[i]);
      }
      var p, q := AllBips(s'.constraints), AllBips(t'.constraints);
      SumBipsMono(p, q);
      FeeMonotone(s.minBaseFee, t.minBaseFee, SumBips(p), SumBips(q));
    } else if s.legacy.Some? {
      assert s'.Backlogs()[0] <= t'.Backlogs()[0];
      LegacyBipsMono(s'.legacy.value, t'.legacy.value);
      FeeMonotone(s.minBaseFee, t.minBaseFee, LegacyBips(s'.legacy.value), LegacyBips(t'.legacy.value));
    }
  }

  // ----- whole replays -----

  /** Across any stretch of any replay, no backlog slot moves further from its twin. */
  lemma {:induction false} ReplaysNeverMoveApart(s: State, t: State, prev: u64, blocks: seq<Block>, anchor: Anchor)
    requires SameShape(s, t)
    ensures SameShape(StateAfter(s, prev, blocks, anchor), StateAfter(t, prev, blocks, anchor))
    ensures NoFurther(StateAfter(s, prev, blocks, anchor).Backlogs(), StateAfter(t, prev, blocks, anchor).Backlogs(),
                      s.Backlogs(), t.Backlogs())
    decreases |blocks|
  {
    if blocks == [] {
      SameShapeSlots(s, t);
    } else {
      hide SameShape, NoFurther, AfterBlock, State.Backlogs;
      var s', t' := AfterBlock(s, prev, blocks[0], anchor), AfterBlock(t, prev, blocks[0], anchor);
      BlockClose(s, t, prev, blocks[0], anchor);
      ReplaysNeverMoveApart(s', t', blocks[0].timestamp, blocks[1..], anchor);
      NoFurtherTrans(StateAfter(s, prev, blocks, anchor).Backlogs(), StateAfter(t, prev, blocks, anchor).Backlogs(),
                     s'.Backlogs(), t'.Backlogs(), s.Backlogs(), t.Backlogs());
    }
  }

  /** Block by block: the distance after block j is at most the distance after any earlier block i. */
  lemma DistanceNonIncreasing(s: State, t: State, prev: u64, blocks: seq<Block>, anchor: Anchor, i: nat, j: nat)
    requires SameShape(s, t) && i <= j <= |blocks|
    ensures NoFurther(StateAfter(s, prev, blocks[..j], anchor).Backlogs(), StateAfter(t, prev, blocks[..j], anchor).Backlogs(),
                      StateAfter(s, prev, blocks[..i], anchor).Backlogs(), StateAfter(t, prev, blocks[..i], anchor).Backlogs())
  {
    hide SameShape, NoFurther, AfterBlock, State.Backlogs;
    assert blocks[..j] == blocks[..i] + blocks[i..j];
    ReplaysNeverMoveApart(s, t, prev, blocks[..i], anchor);
    StateAfterSplit(s, prev, blocks[..i], blocks[i..j], anchor);
    StateAfterSplit(t, prev, blocks[..i], blocks[i..j], anchor);
    ReplaysNeverMoveApart(StateAfter(s, prev, blocks[..i], anchor), StateAfter(t, prev, blocks[..i], anchor),
                          LastTimestamp(prev, blocks[..i]), blocks[i..j], anchor);
  }

  function LastTimestamp(prev: u64, blocks: seq<Block>): u64 {
    if blocks == [] then prev else blocks[|blocks| - 1].timestamp
  }

  lemma {:induction false} StateAfterSplit(s: State, prev: u64, xs: seq<Block>, ys: seq<Block>, anchor: Anchor)
    ensures StateAfter(s, prev, xs + ys, anchor)
         == StateAfter(StateAfter(s, prev, xs, anchor), LastTimestamp(prev, xs), ys, anchor)
    decreases |xs|
  {
    hide AfterBlock;
    if xs == [] {
      assert xs + ys == ys;
    } else {
      assert (xs + ys)[0] == xs[0] && (xs + ys)[1..] == xs[1..] + ys;
      StateAfterSplit(AfterBlock(s, prev, xs[0], anchor), xs[0].timestamp, xs[1..], ys, anchor);
      assert LastTimestamp(xs[0].timestamp, xs[1..]) == LastTimestamp(prev, xs);
    }
  }

  ghost predicate OutcomeBelow(p: Outcome, q: Outcome) {
    p.number == q.number && Below(p.backlogs, q.backlogs) && PricedBelow(p.priced, q.priced)
  }

  ghost predicate AllBelow(ps: seq<Outcome>, qs: seq<Outcome>) {
    |ps| == |qs| && forall i :: 0 <= i < |ps| ==> OutcomeBelow(ps[i], qs[i])
  }

  lemma OneMoreBelow(p: Outcome, ps: seq<Outcome>, q: Outcome, qs: seq<Outcome>)
    requires OutcomeBelow(p, q) && AllBelow(ps, qs)
    ensures AllBelow([p] + ps, [q] + qs)
  {
    hide OutcomeBelow;
  }

  lemma FirstBelow(s: State, t: State, prev: u64, b: Block, anchor: Anchor)
    requires SameShape(s, t) && Below(s.Backlogs(), t.Backlogs())
    ensures OutcomeBelow(OutcomeOf(s, prev, b, anchor), OutcomeOf(t, prev, b, anchor))
  {
    hide SameShape, Below, PricedBelow, AfterBlock, State.Backlogs, StepPrice;
    BlockClose(s, t, prev, b, anchor);
    PriceMono(s, t, Elapsed(prev, b.timestamp));
  }

  /** Pointwise larger starting backlogs give pointwise larger backlogs, exponents and fees at every
      block. */
  lemma {:induction false} ReplayMonotone(s: State, t: State, prev: u64, blocks: seq<Block>, anchor: Anchor)
    requires SameShape(s, t) && Below(s.Backlogs(), t.Backlogs())
    ensures AllBelow(Outcomes(s, prev, blocks, anchor), Outcomes(t, prev, blocks, anchor))
    decreases |blocks|
  {
    hide SameShape, Below, OutcomeBelow, AfterBlock, State.Backlogs, OutcomeOf;
    if blocks != [] {
      hide Outcomes, AllBelow;
      Unroll(s, prev, blocks, anchor);
      Unroll(t, prev, blocks, anchor);
      BlockClose(s, t, prev, blocks[0], anchor);
      FirstBelow(s, t, prev, blocks[0], anchor);
      var s', t' := AfterBlock(s, prev, blocks[0], anchor), AfterBlock(t, prev, blocks[0], anchor);
      ReplayMonotone(s', t', blocks[0].timestamp, blocks[1..], anchor);
      OneMoreBelow(OutcomeOf(s, prev, blocks[0], anchor), Outcomes(s', blocks[0].timestamp, blocks[1..], anchor),
                   OutcomeOf(t, prev, blocks[0], anchor), Outcomes(t', blocks[0].timestamp, blocks[1..], anchor));
    }
  }
}
