/** The pricer of internal/pricer/pricer.go and the replay of internal/pricer/replay.go: two pricing
    models over saturating 64-bit words. `State` is the value the mutable `Pricer` object holds; every
    method of the object is proved against a function on that value. */
module Pricer {
  import opened Words

  const ONE_IN_BIPS: int := 10_000

  datatype Constraint = Constraint(target: u64, window: u64, backlog: u64)
  datatype Legacy = Legacy(speedLimit: u64, inertia: u64, tolerance: u64, backlog: u64)

  /** A non-empty constraint list selects the multi-constraint model. A nil minimum fee is zero. */
  datatype State = State(constraints: seq<Constraint>, legacy: Option<Legacy>, minBaseFee: nat) {
    predicate IsLegacy() { constraints == [] }

    function Backlogs(): seq<u64> {
      if IsLegacy() then
        if legacy.None? then [] else [legacy.value.backlog]
      else
        seq(|constraints|, i requires 0 <= i < |constraints| => constraints[i].backlog)
    }
  }

  datatype Priced = Priced(fee: nat, exponent: i64, per: seq<i64>)

  // ----- the exponential -----

  /** The Horner loop of ApproxExpBips from index i down to 1. */
  function Horner(input: u64, i: nat, res: u64): (r: u64)
    requires i * ONE_IN_BIPS <= MAX_U64
    ensures i > 0 ==> ONE_IN_BIPS <= r
    decreases i
  {
    if i == 0 then res
    else Horner(input, i - 1, HornerStep(input, i, res))
  }

  /** One turn of that loop: res becomes b + res*input/(i*b), saturating. */
  function HornerStep(input: u64, i: nat, res: u64): (r: u64)
    requires 0 < i && i * ONE_IN_BIPS <= MAX_U64
    ensures ONE_IN_BIPS <= r
  {
    DivNat(SaturatingUMul(res, input), i * ONE_IN_BIPS);
    SaturatingUAdd(ONE_IN_BIPS, SaturatingUMul(res, input) / (i * ONE_IN_BIPS))
  }

  /** The value of the loop for a positive accuracy. */
  function ExpU(input: u64, accuracy: nat): (r: u64)
    requires input <= MAX_I64 + 1
    requires 0 < accuracy && accuracy * ONE_IN_BIPS <= MAX_U64
    ensures ONE_IN_BIPS <= r
  {
    DivNat(input, accuracy);
    Horner(input, accuracy - 1, ONE_IN_BIPS + input / accuracy)
  }

  function ApproxExp(x: i64, accuracy: nat): i64
    requires accuracy * ONE_IN_BIPS <= MAX_U64
  {
    if accuracy == 0 then ONE_IN_BIPS
    else if x < 0 then
      DivNat(ONE_IN_BIPS * ONE_IN_BIPS, ExpU(Magnitude(x), accuracy));
      SaturatingCastToBips(ONE_IN_BIPS * ONE_IN_BIPS / ExpU(Magnitude(x), accuracy))
    else SaturatingCastToBips(ExpU(x, accuracy))
  }

  /** ApproxExpBips. The negation of the smallest int64 wraps to itself, and its unsigned reading is
      again the magnitude. */
  method ApproxExpBips(x: i64, accuracy: nat) returns (r: i64)
    requires accuracy * ONE_IN_BIPS <= MAX_U64
    ensures r == ApproxExp(x, accuracy)
  {
    if accuracy == 0 { return ONE_IN_BIPS; }
    var negative := x < 0;
    var input: u64 := WrapU64(if negative then WrapI64(Magnitude(x)) else x);
    assert input == Magnitude(x);
    DivNat(input, accuracy);
    var res: u64 := ONE_IN_BIPS + input / accuracy;
    var i: nat := accuracy - 1;
    hide HornerStep;
    while i > 0
      invariant i < accuracy
      invariant i * ONE_IN_BIPS <= MAX_U64
      invariant Horner(input, i, res) == ExpU(input, accuracy)
    {
      res := HornerStep(input, i, res);
      i := i - 1;
    }
    if negative {
      DivNat(ONE_IN_BIPS * ONE_IN_BIPS, res);
      r := SaturatingCastToBips(ONE_IN_BIPS * ONE_IN_BIPS / res);
    } else {
      r := SaturatingCastToBips(res);
    }
  }

  function NaturalToBips(v: u64): (r: i64)
    ensures r == Min(v * ONE_IN_BIPS, MAX_I64)
  {
    SaturatingCastToBips(SaturatingUMul(v, ONE_IN_BIPS))
  }

  function BaseFeeFromExponent(minBaseFee: nat, exponent: i64): (fee: nat) {
    if exponent <= 0 then minBaseFee
    else minBaseFee * ApproxExp(exponent, 4) / ONE_IN_BIPS
  }

  // ----- one step -----

  function Drain(backlog: u64, dt: u64, target: u64): u64 {
    SaturatingUSub(backlog, SaturatingUMul(dt, target))
  }

  /** The exponent one constraint contributes for an already drained backlog. */
  function ConstraintBips(c: Constraint): (r: i64)
    ensures 0 <= r
  {
    var divisor := SaturatingUMul(c.window, c.target);
    if c.backlog == 0 || divisor == 0 then 0
    else
      DivNat(NaturalToBips(c.backlog), SaturatingCastToBips(divisor));
      NaturalToBips(c.backlog) / SaturatingCastToBips(divisor)
  }

  function DrainAll(cs: seq<Constraint>, dt: u64): (r: seq<Constraint>)
    ensures |r| == |cs|
    ensures forall i :: 0 <= i < |cs| ==> r[i] == cs[i].(backlog := Drain(cs[i].backlog, dt, cs[i].target))
  {
    seq(|cs|, i requires 0 <= i < |cs| => cs[i].(backlog := Drain(cs[i].backlog, dt, cs[i].target)))
  }

  function AllBips(cs: seq<Constraint>): (r: seq<i64>)
    ensures |r| == |cs|
    ensures forall i :: 0 <= i < |cs| ==> r[i] == ConstraintBips(cs[i])
  {
    seq(|cs|, i requires 0 <= i < |cs| => ConstraintBips(cs[i]))
  }

  /** The saturating sum in list order. */
  function SumBips(per: seq<i64>): i64 {
    if per == [] then 0
    else SaturatingAddBips(SumBips(per[..|per| - 1]), per[|per| - 1])
  }

  /** The legacy exponent: the tolerance threshold is a plain multiplication and wraps. */
  function LegacyBips(l: Legacy): (r: i64)
    ensures 0 <= r
  {
    var threshold := WrapU64(l.tolerance * l.speedLimit);
    if l.backlog <= threshold then 0
    else
      var inertia := SaturatingCastToBips(SaturatingUMul(l.inertia, l.speedLimit));
      if inertia > 0 then
        DivNat(NaturalToBips(l.backlog - threshold), inertia);
        NaturalToBips(l.backlog - threshold) / inertia
      else 0
  }

  /** Step: the state after paying backlogs down for dt seconds, and what it prices. */
  function StepState(s: State, dt: u64): State {
    if !s.IsLegacy() then s.(constraints := DrainAll(s.constraints, dt))
    else if s.legacy.None? then s
    else
      var l := s.legacy.value;
      s.(legacy := Some(l.(backlog := Drain(l.backlog, dt, l.speedLimit))))
  }

  function StepPrice(s: State, dt: u64): Priced {
    var t := StepState(s, dt);
    if !s.IsLegacy() then
      var per := AllBips(t.constraints);
      Priced(BaseFeeFromExponent(s.minBaseFee, SumBips(per)), SumBips(per), per)
    else if s.legacy.None? then Priced(s.minBaseFee, 0, [])
    else
      var e := LegacyBips(t.legacy.value);
      Priced(BaseFeeFromExponent(s.minBaseFee, e), e, [e])
  }

  function GasAdded(s: State, gas: u64): State {
    if !s.IsLegacy() then s.(constraints := AddToAll(s.constraints, gas))
    else if s.legacy.None? then s
    else
      var l := s.legacy.value;
      s.(legacy := Some(l.(backlog := SaturatingUAdd(l.backlog, gas))))
  }

  function AddToAll(cs: seq<Constraint>, gas: u64): (r: seq<Constraint>)
    ensures |r| == |cs|
    ensures forall i :: 0 <= i < |cs| ==> r[i] == cs[i].(backlog := SaturatingUAdd(cs[i].backlog, gas))
  {
    seq(|cs|, i requires 0 <= i < |cs| => cs[i].(backlog := SaturatingUAdd(cs[i].backlog, gas)))
  }

  /** Extra values are ignored and missing ones leave the existing backlog in place. */
  function BacklogsSet(s: State, backlogs: seq<u64>): State {
    if !s.IsLegacy() then s.(constraints := Overwrite(s.constraints, backlogs))
    else if s.legacy.Some? && backlogs != [] then s.(legacy := Some(s.legacy.value.(backlog := backlogs[0])))
    else s
  }

  function Overwrite(cs: seq<Constraint>, backlogs: seq<u64>): (r: seq<Constraint>)
    ensures |r| == |cs|
    ensures forall i :: 0 <= i < |cs| ==> r[i] == if i < |backlogs| then cs[i].(backlog := backlogs[i]) else cs[i]
  {
    seq(|cs|, i requires 0 <= i < |cs| => if i < |backlogs| then cs[i].(backlog := backlogs[i]) else cs[i])
  }

  // ----- the mutable object -----

  class Pricer {
    var constraints: seq<Constraint>
    var legacy: Option<Legacy>
    var minBaseFee: nat

    ghost function Value(): State reads this { State(constraints, legacy, minBaseFee) }

    constructor (s: State)
      ensures Value() == s
    {
      constraints, legacy, minBaseFee := s.constraints, s.legacy, s.minBaseFee;
    }

    method AddGas(gas: u64)
      modifies this
      ensures Value() == GasAdded(old(Value()), gas)
    {
      if constraints == [] {
        if legacy.Some? {
          legacy := Some(legacy.value.(backlog := SaturatingUAdd(legacy.value.backlog, gas)));
        }
        return;
      }
      var i := 0;
      while i < |constraints|
        invariant i <= |constraints| == |old(constraints)|
        invariant legacy == old(legacy) && minBaseFee == old(minBaseFee)
        invariant constraints[..i] == AddToAll(old(constraints), gas)[..i]
        invariant constraints[i..] == old(constraints)[i..]
      {
        var c := constraints[i];
        assert c == old(constraints)[i] by { assert c == constraints[i..][0]; }
        constraints := constraints[i := c.(backlog := SaturatingUAdd(c.backlog, gas))];
        i := i + 1;
      }
    }

    method SetBacklogs(backlogs: seq<u64>)
      modifies this
      ensures Value() == BacklogsSet(old(Value()), backlogs)
    {
      if constraints == [] {
        if legacy.Some? && |backlogs| > 0 {
          legacy := Some(legacy.value.(backlog := backlogs[0]));
        }
        return;
      }
      var i := 0;
      while i < |constraints|
        invariant i <= |constraints| == |old(constraints)|
        invariant legacy == old(legacy) && minBaseFee == old(minBaseFee)
        invariant constraints[..i] == Overwrite(old(constraints), backlogs)[..i]
        invariant constraints[i..] == old(constraints)[i..]
      {
        var c := constraints[i];
        assert c == old(constraints)[i] by { assert c == constraints[i..][0]; }
        if i < |backlogs| {
          constraints := constraints[i := c.(backlog := backlogs[i])];
        }
        i := i + 1;
      }
    }

    /** Backlogs are paid down at the target rate, then the exponent and the fee are computed. */
    method Step(dt: u64) returns (p: Priced)
      modifies this
      ensures Value() == StepState(old(Value()), dt)
      ensures p == StepPrice(old(Value()), dt)
    {
      if constraints == [] {
        p := StepLegacy(dt);
        return;
      }
      var per: seq<i64> := [];
      var exponent: i64 := 0;
      var i := 0;
      ghost var cs := constraints;
      ghost var bips := AllBips(DrainAll(cs, dt));
      while i < |constraints|
        invariant i <= |constraints| == |cs|
        invariant legacy == old(legacy) && minBaseFee == old(minBaseFee)
        invariant forall j :: 0 <= j < i ==> constraints[j] == DrainAll(cs, dt)[j]
        invariant forall j :: i <= j < |cs| ==> constraints[j] == cs[j]
        invariant per == bips[..i]
        invariant exponent == SumBips(per)
      {
        var c, e := StepConstraint(constraints[i], dt);
        constraints := constraints[i := c];
        assert (per + [e])[..i] == per;
        exponent := SaturatingAddBips(exponent, e);
        per := per + [e];
        i := i + 1;
      }
      assert per == bips && constraints == DrainAll(cs, dt);
      p := Priced(BaseFeeFromExponent(minBaseFee, exponent), exponent, per);
    }

    /** One turn of the loop of Step: a constraint that is drained or has no divisor adds nothing. */
    static method StepConstraint(was: Constraint, dt: u64) returns (c: Constraint, e: i64)
      ensures c == was.(backlog := Drain(was.backlog, dt, was.target)) && e == ConstraintBips(c)
    {
      c := was.(backlog := SaturatingUSub(was.backlog, SaturatingUMul(dt, was.target)));
      e := 0;
      if c.backlog != 0 {
        var divisor := SaturatingUMul(c.window, c.target);
        if divisor != 0 {
          DivNat(NaturalToBips(c.backlog), SaturatingCastToBips(divisor));
          e := NaturalToBips(c.backlog) / SaturatingCastToBips(divisor);
        }
      }
    }

    method StepLegacy(dt: u64) returns (p: Priced)
      requires constraints == []
      modifies this
      ensures Value() == StepState(old(Value()), dt)
      ensures p == StepPrice(old(Value()), dt)
    {
      if legacy.None? { return Priced(minBaseFee, 0, []); }
      var l := legacy.value;
      l := l.(backlog := SaturatingUSub(l.backlog, SaturatingUMul(dt, l.speedLimit)));
      legacy := Some(l);
      var exponent: i64 := 0;
      var threshold := WrapU64(l.tolerance * l.speedLimit);
      if l.backlog > threshold {
        var inertia := SaturatingCastToBips(SaturatingUMul(l.inertia, l.speedLimit));
        if inertia > 0 {
          DivNat(NaturalToBips(l.backlog - threshold), inertia);
          exponent := NaturalToBips(l.backlog - threshold) / inertia;
        }
      }
      p := Priced(BaseFeeFromExponent(minBaseFee, exponent), exponent, [exponent]);
    }
  }

  // ----- replay -----

  datatype Block = Block(number: u64, timestamp: u64, gasUsed: u64)
  datatype Outcome = Outcome(number: u64, backlogs: seq<u64>, priced: Priced, anchored: bool)

  /** Consulted after each block: the sampled backlogs to pin the replay to, when there are any. */
  type Anchor = u64 -> Option<seq<u64>>

  function Elapsed(prev: u64, timestamp: u64): u64 {
    if prev != 0 && timestamp > prev then timestamp - prev else 0
  }

  function AfterBlock(s: State, prev: u64, b: Block, anchor: Anchor): State {
    var t := GasAdded(StepState(s, Elapsed(prev, b.timestamp)), b.gasUsed);
    match anchor(b.number)
    case Some(backlogs) => BacklogsSet(t, backlogs)
    case None => t
  }

  function OutcomeOf(s: State, prev: u64, b: Block, anchor: Anchor): Outcome {
    Outcome(b.number, AfterBlock(s, prev, b, anchor).Backlogs(), StepPrice(s, Elapsed(prev, b.timestamp)),
            anchor(b.number).Some?)
  }

  /** The state a replay leaves behind, and its results. */
  function StateAfter(s: State, prev: u64, blocks: seq<Block>, anchor: Anchor): State
    decreases |blocks|
  {
    if blocks == [] then s
    else StateAfter(AfterBlock(s, prev, blocks[0], anchor), blocks[0].timestamp, blocks[1..], anchor)
  }

  function Outcomes(s: State, prev: u64, blocks: seq<Block>, anchor: Anchor): (r: seq<Outcome>)
    ensures |r| == |blocks|
    decreases |blocks|
  {
    if blocks == [] then []
    else [OutcomeOf(s, prev, blocks[0], anchor)] +
         Outcomes(AfterBlock(s, prev, blocks[0], anchor), blocks[0].timestamp, blocks[1..], anchor)
  }

  method ReplayBlock(p: Pricer, prev: u64, b: Block, anchor: Anchor) returns (r: Outcome)
    modifies p
    ensures p.Value() == AfterBlock(old(p.Value()), prev, b, anchor)
    ensures r == OutcomeOf(old(p.Value()), prev, b, anchor)
  {
    hide StepState, StepPrice, GasAdded, BacklogsSet, State.Backlogs;
    var dt: u64 := 0;
    if prev != 0 && b.timestamp > prev { dt := b.timestamp - prev; }
    var priced := p.Step(dt);
    p.AddGas(b.gasUsed);
    var sampled := anchor(b.number);
    if sampled.Some? { p.SetBacklogs(sampled.value); }
    r := Outcome(b.number, State(p.constraints, p.legacy, p.minBaseFee).Backlogs(), priced, sampled.Some?);
  }

  /** Replay: the state is mutated, so a caller continues with later blocks; each result holds what its
      own block's step computed. */
  method Replay(p: Pricer, prevTimestamp: u64, blocks: seq<Block>, anchor: Anchor) returns (results: seq<Outcome>)
    modifies p
    ensures p.Value() == StateAfter(old(p.Value()), prevTimestamp, blocks, anchor)
    ensures results == Outcomes(old(p.Value()), prevTimestamp, blocks, anchor)
  {
    results := [];
    var prev := prevTimestamp;
    var i := 0;
    ghost var final, all := StateAfter(p.Value(), prev, blocks, anchor), Outcomes(p.Value(), prev, blocks, anchor);
    assert blocks[0..] == blocks;
    hide AfterBlock, OutcomeOf, StateAfter, Outcomes, State.Backlogs;
    while i < |blocks|
      invariant i <= |blocks|
      invariant StateAfter(p.Value(), prev, blocks[i..], anchor) == final
      invariant results + Outcomes(p.Value(), prev, blocks[i..], anchor) == all
    {
      UnrollAt(p.Value(), prev, blocks, i, anchor);
      ghost var rest := Outcomes(AfterBlock(p.Value(), prev, blocks[i], anchor), blocks[i].timestamp, blocks[i + 1..], anchor);
      var r := ReplayBlock(p, prev, blocks[i], anchor);
      OneMoreResult(results, r, rest);
      prev := blocks[i].timestamp;
      results := results + [r];
      i := i + 1;
    }
    assert blocks[i..] == [];
    NothingLeft(p.Value(), prev, anchor);
  }

  lemma OneMoreResult(results: seq<Outcome>, r: Outcome, rest: seq<Outcome>)
    ensures results + ([r] + rest) == results + [r] + rest
  {
  }

  lemma UnrollAt(s: State, prev: u64, blocks: seq<Block>, i: nat, anchor: Anchor)
    requires i < |blocks|
    ensures StateAfter(s, prev, blocks[i..], anchor)
         == StateAfter(AfterBlock(s, prev, blocks[i], anchor), blocks[i].timestamp, blocks[i + 1..], anchor)
    ensures Outcomes(s, prev, blocks[i..], anchor)
         == [OutcomeOf(s, prev, blocks[i], anchor)] +
            Outcomes(AfterBlock(s, prev, blocks[i], anchor), blocks[i].timestamp, blocks[i + 1..], anchor)
  {
    hide AfterBlock, OutcomeOf, StateAfter, Outcomes;
    assert blocks[i..][0] == blocks[i] && blocks[i..][1..] == blocks[i + 1..];
    Unroll(s, prev, blocks[i..], anchor);
  }

  lemma Unroll(s: State, prev: u64, blocks: seq<Block>, anchor: Anchor)
    requires blocks != []
    ensures StateAfter(s, prev, blocks, anchor)
         == StateAfter(AfterBlock(s, prev, blocks[0], anchor), blocks[0].timestamp, blocks[1..], anchor)
    ensures Outcomes(s, prev, blocks, anchor)
         == [OutcomeOf(s, prev, blocks[0], anchor)] +
            Outcomes(AfterBlock(s, prev, blocks[0], anchor), blocks[0].timestamp, blocks[1..], anchor)
  {
    hide AfterBlock, OutcomeOf;
  }

  lemma NothingLeft(s: State, prev: u64, anchor: Anchor)
    ensures StateAfter(s, prev, [], anchor) == s && Outcomes(s, prev, [], anchor) == []
  {
  }

  /** ErrorBips: |predicted - actual| in bips of actual, zero without an actual fee, saturated. */
  function ErrorBips(predicted: nat, actual: nat): (r: i64)
    ensures 0 <= r
    ensures actual > 0 ==> r * actual <= Dist(predicted, actual) * ONE_IN_BIPS
    ensures actual > 0 && r < MAX_I64 ==> Dist(predicted, actual) * ONE_IN_BIPS < (r + 1) * actual
    ensures actual == 0 ==> r == 0
  {
    if actual == 0 then 0
    else
      DivNat(Dist(predicted, actual) * ONE_IN_BIPS, actual);
      CutQuotient(Dist(predicted, actual) * ONE_IN_BIPS, actual);
      Min(Dist(predicted, actual) * ONE_IN_BIPS / actual, MAX_I64)
  }

  lemma CutQuotient(n: nat, d: nat)
    requires d > 0
    ensures var r := Min(n / d, MAX_I64); r * d <= n && (r < MAX_I64 ==> n < (r + 1) * d)
  {
    var q := n / d;
    DivNat(n, d);
    assert n == d * q + n % d;
    assert q * d <= n < (q + 1) * d;
    MulMono(Min(q, MAX_I64), q, d);
  }
}
