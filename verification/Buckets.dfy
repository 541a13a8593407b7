/** Time buckets over block rows: BucketBuilder, FoldBlocks and MergeBuckets of internal/db/bucket.go.
    NULL columns are None; amounts of wei are unbounded; gas counters wrap at 64 bits as they do there. */
module Buckets {
  import opened Words
  import Pricer

  const PRICING_UNKNOWN: int := 0
  const PRICING_FULL: int := 1

  /** The columns of a block row that a bucket reads. Time is in nanoseconds since an epoch every
      resolution divides. */
  datatype Block = Block(number: u64, ts: nat, gasUsed: u64, posterGas: Option<i64>, baseFee: nat,
                         backlogs: seq<u64>, bips: seq<i64>, exponent: i64, predicted: Option<nat>,
                         minBaseFee: Option<nat>, version: int, arbos: Option<i64>)
  {
    predicate Known() { version >= PRICING_FULL && minBaseFee.Some? }
    predicate PosterKnown() { posterGas.Some? && 0 <= posterGas.value <= gasUsed }
    predicate DestinationsKnown() { Known() && PosterKnown() }

    function ReplayError(): (r: i64)
      ensures 0 <= r
    {
      if predicted.None? then 0 else Pricer.ErrorBips(predicted.value, baseFee)
    }
  }

  /** The fields that follow the highest block folded in. */
  datatype Ending = Ending(lastBlock: u64, exponent: i64, backlogs: seq<u64>, bips: Option<seq<i64>>, minBaseFee: Option<nat>)

  datatype Bucket = Bucket(blocks: nat, gasUsed: u64, posterGas: Option<i64>, fees: nat, posterFees: Option<nat>,
                           feeMin: nat, feeAvg: nat, feeMax: nat, feeSum: Option<nat>,
                           floorFees: Option<nat>, surplusFees: Option<nat>, ending: Ending, setID: Option<int>,
                           backlogsMax: seq<u64>, replayError: i64, version: int, arbos: Option<(i64, i64)>)

  const EMPTY: Bucket :=
    Bucket(0, 0, Some(0), 0, Some(0), 0, 0, 0, Some(0), Some(0), Some(0), Ending(0, 0, [], Some([]), Some(0)), None,
           [], 0, PRICING_FULL, None)

  // ----- folding one block in -----

  function AddGasI64(a: Option<i64>, b: Option<i64>): Option<i64> {
    if a.None? || b.None? then None else Some(WrapI64(a.value + b.value))
  }

  function AddWei(a: Option<nat>, b: Option<nat>): Option<nat> {
    if a.None? || b.None? then None else Some(a.value + b.value)
  }

  /** Element-wise maximum; the longer list keeps its tail. */
  function MaxEach(a: seq<u64>, b: seq<u64>): (r: seq<u64>)
    ensures |r| == Max(|a|, |b|)
    ensures forall i :: 0 <= i < |r| ==>
              r[i] == if i >= |a| then b[i] else if i >= |b| then a[i] else Max(a[i], b[i])
  {
    seq(Max(|a|, |b|), i requires 0 <= i < Max(|a|, |b|) =>
      if i >= |a| then b[i] else if i >= |b| then a[i] else if b[i] > a[i] then b[i] else a[i])
  }

  function EndingOf(x: Block): Ending { Ending(x.number, x.exponent, x.backlogs, Some(x.bips), x.minBaseFee) }

  function ExtendArbOS(range: Option<(i64, i64)>, v: Option<i64>, first: bool): Option<(i64, i64)> {
    if v.None? || (!first && range.None?) then None
    else if first then Some((v.value, v.value))
    else Some((Min(range.value.0, v.value), Max(range.value.1, v.value)))
  }

  function PosterFees(x: Block): nat { if x.PosterKnown() then x.baseFee * x.posterGas.value else 0 }
  function ComputeGas(x: Block): nat { if x.PosterKnown() then x.gasUsed - x.posterGas.value else 0 }

  /** The floor rate never exceeds the fee that was paid. */
  function FloorFees(x: Block): nat {
    if x.DestinationsKnown() then Min(x.minBaseFee.value, x.baseFee) * ComputeGas(x) else 0
  }

  function SurplusFees(x: Block): nat {
    MulMono(FloorRate(x), x.baseFee, ComputeGas(x));
    if x.DestinationsKnown() then x.baseFee * ComputeGas(x) - FloorFees(x) else 0
  }

  function FloorRate(x: Block): nat {
    if x.minBaseFee.Some? then Min(x.minBaseFee.value, x.baseFee) else x.baseFee
  }

  /** BucketBuilder.Add on the value it holds. */
  function Added(b: Bucket, x: Block, setID: Option<int>): Bucket {
    var posterKnown := x.PosterKnown() && b.posterGas.Some? && b.posterFees.Some?;
    var split := x.DestinationsKnown() && b.floorFees.Some? && b.surplusFees.Some?;
    var latest := x.number >= b.ending.lastBlock;
    Bucket(
      b.blocks + 1,
      WrapU64(b.gasUsed + x.gasUsed),
      if posterKnown then Some(WrapI64(b.posterGas.value + x.posterGas.value)) else None,
      b.fees + x.baseFee * x.gasUsed,
      if posterKnown then Some(b.posterFees.value + PosterFees(x)) else None,
      if b.blocks == 0 || x.baseFee < b.feeMin then x.baseFee else b.feeMin,
      b.feeAvg,
      Max(b.feeMax, x.baseFee),
      if b.feeSum.Some? then Some(b.feeSum.value + x.baseFee) else None,
      if split then Some(b.floorFees.value + FloorFees(x)) else None,
      if split then Some(b.surplusFees.value + SurplusFees(x)) else None,
      if latest then EndingOf(x) else b.ending,
      if latest && setID.Some? then setID else b.setID,
      MaxEach(b.backlogsMax, x.backlogs),
      Max(b.replayError, x.ReplayError()),
      if x.Known() then b.version else PRICING_UNKNOWN,
      ExtendArbOS(b.arbos, x.arbos, b.blocks == 0))
  }

  function MaskEnding(e: Ending, version: int): Ending {
    if version == PRICING_UNKNOWN then e.(bips := None, minBaseFee := None) else e
  }

  function MaskWei(w: Option<nat>, version: int): Option<nat> {
    if version == PRICING_UNKNOWN then None else w
  }

  /** BucketBuilder.Bucket: the average from the exact sum; no split and no floor for unknown pricing. */
  function Finished(b: Bucket): Bucket {
    b.(feeAvg := if b.blocks > 0 && b.feeSum.Some? then b.feeSum.value / b.blocks else b.feeAvg,
       ending := MaskEnding(b.ending, b.version),
       floorFees := MaskWei(b.floorFees, b.version),
       surplusFees := MaskWei(b.surplusFees, b.version))
  }

  type Sets = u64 -> Option<int>

  function Folded(b: Bucket, xs: seq<Block>, sets: Sets): Bucket
    decreases |xs|
  {
    if xs == [] then b
    else
      var n := |xs| - 1;
      Added(Folded(b, xs[..n], sets), xs[n], sets(xs[n].number))
  }

  /** One pass of the builder over a list of rows. */
  function Built(xs: seq<Block>, sets: Sets): Bucket { Finished(Folded(EMPTY, xs, sets)) }

  // ----- merging -----

  function FeeSumOf(b: Bucket): nat { if b.feeSum.Some? then b.feeSum.value else b.feeAvg * b.blocks }

  function MergeArbOS(a: Bucket, b: Bucket): Option<(i64, i64)> {
    if a.blocks == 0 then b.arbos
    else if b.blocks == 0 then a.arbos
    else if a.arbos.None? || b.arbos.None? then None
    else Some((Min(a.arbos.value.0, b.arbos.value.0), Max(a.arbos.value.1, b.arbos.value.1)))
  }

  /** MergeBuckets: the additive fold of a partial bucket into a stored one. */
  function Merge(a: Bucket, b: Bucket): Bucket {
    var version := Min(a.version, b.version);
    var later := b.ending.lastBlock >= a.ending.lastBlock;
    Bucket(
      a.blocks + b.blocks,
      WrapU64(a.gasUsed + b.gasUsed),
      AddGasI64(a.posterGas, b.posterGas),
      a.fees + b.fees,
      AddWei(a.posterFees, b.posterFees),
      if a.blocks == 0 || b.feeMin < a.feeMin then b.feeMin else a.feeMin,
      if a.blocks + b.blocks > 0 then (FeeSumOf(a) + FeeSumOf(b)) / (a.blocks + b.blocks) else 0,
      if b.feeMax > a.feeMax then b.feeMax else a.feeMax,
      AddWei(a.feeSum, b.feeSum),
      MaskWei(AddWei(a.floorFees, b.floorFees), version),
      MaskWei(AddWei(a.surplusFees, b.surplusFees), version),
      MaskEnding(if later then b.ending else a.ending, version),
      if later && b.setID.Some? then b.setID else a.setID,
      MaxEach(a.backlogsMax, b.backlogsMax),
      Max(a.replayError, b.replayError),
      version,
      MergeArbOS(a, b))
  }

  // ----- the builder object -----

  class BucketBuilder {
    var b: Bucket

    /** A builder only ever holds a known sum, and knows poster gas and poster fees together. */
    ghost predicate Valid()
      reads this
    {
      b.feeSum.Some? && b.posterGas.Some? == b.posterFees.Some?
    }

    constructor ()
      ensures Valid() && b == EMPTY
    {
      b := EMPTY;
    }

    /** Field by field, in the order of the source. */
    method Add(x: Block, setID: Option<int>)
      requires Valid()
      modifies this
      ensures Valid() && b == Added(old(b), x, setID)
    {
      hide PosterFees, FloorFees, SurplusFees, MaxEach, ExtendArbOS, Block.ReplayError, Block.Known, Block.PosterKnown, EndingOf, WrapU64, WrapI64;
      AddFees(x);
      AddPoster(x);
      AddSplit(x);
      AddEnding(x, setID);
      AddMaxima(x);
    }

    method AddMaxima(x: Block)
      modifies this
      ensures b == old(b).(backlogsMax := MaxEach(old(b).backlogsMax, x.backlogs),
                           replayError := Max(old(b).replayError, x.ReplayError()),
                           arbos := ExtendArbOS(old(b).arbos, x.arbos, old(b).blocks == 1))
    {
      var mx := WidenMaxima(b.backlogsMax, x.backlogs);
      b := b.(backlogsMax := mx);
      var e := x.ReplayError();
      if e > b.replayError { b := b.(replayError := e); }
      b := b.(arbos := ExtendArbOS(b.arbos, x.arbos, b.blocks == 1));
    }

    method AddFees(x: Block)
      requires Valid()
      modifies this
      ensures b == old(b).(version := if x.Known() then old(b).version else PRICING_UNKNOWN,
                           feeMin := if old(b).blocks == 0 || x.baseFee < old(b).feeMin then x.baseFee else old(b).feeMin,
                           feeMax := Max(old(b).feeMax, x.baseFee),
                           blocks := old(b).blocks + 1, gasUsed := WrapU64(old(b).gasUsed + x.gasUsed),
                           feeSum := Some(old(b).feeSum.value + x.baseFee), fees := old(b).fees + x.baseFee * x.gasUsed)
    {
      if !x.Known() { b := b.(version := PRICING_UNKNOWN); }
      if b.blocks == 0 || x.baseFee < b.feeMin { b := b.(feeMin := x.baseFee); }
      if x.baseFee > b.feeMax { b := b.(feeMax := x.baseFee); }
      b := b.(blocks := b.blocks + 1, gasUsed := WrapU64(b.gasUsed + x.gasUsed),
              feeSum := Some(b.feeSum.value + x.baseFee), fees := x.baseFee * x.gasUsed + b.fees);
    }

    method AddPoster(x: Block)
      requires Valid()
      modifies this
      ensures var known := x.PosterKnown() && old(b).posterGas.Some?;
              b == old(b).(posterGas := if known then Some(WrapI64(old(b).posterGas.value + x.posterGas.value)) else None,
                           posterFees := if known then Some(old(b).posterFees.value + PosterFees(x)) else None)
    {
      if x.PosterKnown() && b.posterGas.Some? {
        b := b.(posterGas := Some(WrapI64(b.posterGas.value + x.posterGas.value)),
                posterFees := Some(x.baseFee * x.posterGas.value + b.posterFees.value));
      } else {
        b := b.(posterGas := None, posterFees := None);
      }
    }

    method AddSplit(x: Block)
      modifies this
      ensures var known := x.DestinationsKnown() && old(b).floorFees.Some? && old(b).surplusFees.Some?;
              b == old(b).(floorFees := if known then Some(old(b).floorFees.value + FloorFees(x)) else None,
                           surplusFees := if known then Some(old(b).surplusFees.value + SurplusFees(x)) else None)
    {
      hide FloorFees, SurplusFees;
      if x.DestinationsKnown() && b.floorFees.Some? && b.surplusFees.Some? {
        var split := Split(x);
        b := b.(floorFees := Some(split.0 + b.floorFees.value), surplusFees := Some(split.1 + b.surplusFees.value));
      } else {
        b := b.(floorFees := None, surplusFees := None);
      }
    }

    method AddEnding(x: Block, setID: Option<int>)
      modifies this
      ensures var latest := x.number >= old(b).ending.lastBlock;
              b == old(b).(ending := if latest then EndingOf(x) else old(b).ending,
                           setID := if latest && setID.Some? then setID else old(b).setID)
    {
      if x.number >= b.ending.lastBlock {
        b := b.(ending := Ending(x.number, x.exponent, x.backlogs, Some(x.bips), x.minBaseFee));
        if setID.Some? { b := b.(setID := setID); }
      }
    }

    static method Split(x: Block) returns (r: (nat, nat))
      ensures r == (FloorFees(x), SurplusFees(x))
    {
      if !x.DestinationsKnown() { return (0, 0); }
      var compute: nat := x.gasUsed - x.posterGas.value;
      var rate := x.minBaseFee.value;
      if x.baseFee < rate { rate := x.baseFee; }
      MulMono(rate, x.baseFee, compute);
      r := (rate * compute, x.baseFee * compute - rate * compute);
    }

    static method WidenMaxima(mx: seq<u64>, backlogs: seq<u64>) returns (r: seq<u64>)
      ensures r == MaxEach(mx, backlogs)
    {
      r := mx;
      var i := 0;
      while i < |backlogs|
        invariant i <= |backlogs| && |r| == Max(|mx|, i)
        invariant forall j :: 0 <= j < |r| ==>
                    r[j] == if j >= |mx| then backlogs[j] else if j >= i then mx[j] else Max(mx[j], backlogs[j])
      {
        if i >= |r| {
          r := r + [backlogs[i]];
        } else if backlogs[i] > r[i] {
          r := r[i := backlogs[i]];
        }
        i := i + 1;
      }
    }

    function Result(): Bucket
      reads this
    {
      Finished(b)
    }
  }
}
