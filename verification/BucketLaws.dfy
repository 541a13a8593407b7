/** Buckets are a commutative fold: however a set of blocks is cut into batches, built and merged, the
    result is the bucket of one pass, the constraint set id aside. Fees split exactly. */
module BucketLaws {
  import opened Words
  import opened Buckets

  /** A bucket with its constraint set id put aside: later set edits do not rebuild buckets. */
  function Aside(b: Bucket): Bucket { b.(setID := None) }

  ghost const NO_SETS: Sets := (n: u64) => None

  ghost function Plain(xs: seq<Block>): Bucket { Built(xs, NO_SETS) }

  // ----- the set id never reaches another field -----

  lemma AsideAdded(b: Bucket, x: Block, setID: Option<int>)
    ensures Aside(Added(b, x, setID)) == Added(Aside(b), x, None)
  {
    hide PosterFees, FloorFees, SurplusFees, MaxEach, ExtendArbOS, Block.ReplayError, Block.Known, Block.PosterKnown, EndingOf;
  }

  lemma {:induction false} AsideFolded(xs: seq<Block>, sets: Sets)
    ensures Aside(Folded(EMPTY, xs, sets)) == Folded(EMPTY, xs, NO_SETS)
  {
    hide Added;
    if xs != [] {
      var n := |xs| - 1;
      AsideFolded(xs[..n], sets);
      AsideAdded(Folded(EMPTY, xs[..n], sets), xs[n], sets(xs[n].number));
    }
  }

  lemma AsideBuilt(xs: seq<Block>, sets: Sets)
    ensures Aside(Built(xs, sets)) == Plain(xs)
  {
    hide Folded;
    AsideFolded(xs, sets);
  }

  lemma AsideMerge(a: Bucket, b: Bucket)
    ensures Aside(Merge(a, b)) == Aside(Merge(Aside(a), Aside(b)))
  {
    hide AddGasI64, AddWei, MaxEach, MaskEnding, MaskWei;
  }

  // ----- what every built bucket satisfies -----

  /** Non-empty, exact average, pricing known or not, and nothing shown that unknown pricing hides. */
  ghost predicate Whole(b: Bucket) {
    && b.blocks > 0 && b.feeSum.Some? && b.feeAvg == b.feeSum.value / b.blocks
    && (b.version == PRICING_UNKNOWN || b.version == PRICING_FULL)
    && b.ending == MaskEnding(b.ending, b.version)
    && b.floorFees == MaskWei(b.floorFees, b.version) && b.surplusFees == MaskWei(b.surplusFees, b.version)
    && b.setID == None
  }

  /** The builder's running value: a known sum, and paired columns known together. */
  ghost predicate Running(b: Bucket) {
    && b.feeSum.Some? && (b.version == PRICING_UNKNOWN || b.version == PRICING_FULL)
    && b.posterGas.Some? == b.posterFees.Some? && b.floorFees.Some? == b.surplusFees.Some?
    && b.setID == None
  }

  lemma {:induction false} FoldedRunning(xs: seq<Block>)
    ensures Running(Folded(EMPTY, xs, NO_SETS)) && Folded(EMPTY, xs, NO_SETS).blocks == |xs|
  {
    hide PosterFees, FloorFees, SurplusFees, MaxEach, ExtendArbOS, Block.ReplayError, EndingOf;
    if xs != [] { FoldedRunning(xs[..|xs| - 1]); }
  }

  lemma PlainWhole(xs: seq<Block>)
    requires xs != []
    ensures Whole(Plain(xs)) && Plain(xs).blocks == |xs|
  {
    hide Folded;
    FoldedRunning(xs);
  }

  // ----- one block more is a merge with its own bucket -----

  /** The bucket of one block, column by column. */
  ghost function Alone(x: Block): Bucket {
    var version := if x.Known() then PRICING_FULL else PRICING_UNKNOWN;
    Bucket(1, x.gasUsed, if x.PosterKnown() then x.posterGas else None, x.baseFee * x.gasUsed,
           if x.PosterKnown() then Some(PosterFees(x)) else None, x.baseFee, x.baseFee, x.baseFee, Some(x.baseFee),
           if x.DestinationsKnown() then Some(FloorFees(x)) else None,
           if x.DestinationsKnown() then Some(SurplusFees(x)) else None,
           MaskEnding(EndingOf(x), version), None, x.backlogs, x.ReplayError(), version, ExtendArbOS(None, x.arbos, true))
  }

  lemma AloneIsBuilt(x: Block)
    ensures Finished(Added(EMPTY, x, None)) == Alone(x)
  {
    hide PosterFees, FloorFees, SurplusFees, MaxEach, Block.ReplayError, WrapU64, WrapI64;
    MaxEachEmpty(x.backlogs);
    ErrorNonNegative(x);
    FitsItself(x.gasUsed);
    if x.posterGas.Some? { FitsItself(x.posterGas.value); }
  }

  lemma AddedIsMerge(f: Bucket, x: Block)
    requires Running(f) && f.blocks > 0
    ensures Finished(Added(f, x, None)) == Merge(Finished(f), Finished(Added(EMPTY, x, None)))
  {
    AloneIsBuilt(x);
    hide PosterFees, FloorFees, SurplusFees, MaxEach, Block.ReplayError, WrapU64, WrapI64;
    assert Finished(Added(f, x, None)) == Merge(Finished(f), Alone(x));
  }

  lemma FitsItself(a: int)
    ensures 0 <= a <= MAX_U64 ==> WrapU64(0 + a) == a
    ensures MIN_I64 <= a <= MAX_I64 ==> WrapI64(0 + a) == a
  {
  }

  lemma MaxEachEmpty(a: seq<u64>)
    ensures MaxEach([], a) == a
  {
  }

  lemma ErrorNonNegative(x: Block)
    ensures 0 <= x.ReplayError()
  {
  }

  lemma AppendIsMerge(xs: seq<Block>, x: Block)
    requires xs != []
    ensures Plain(xs + [x]) == Merge(Plain(xs), Plain([x]))
  {
    hide Added, Finished, Merge;
    assert (xs + [x])[..|xs|] == xs;
    assert [x][..0] == [];
    FoldedRunning(xs);
    AddedIsMerge(Folded(EMPTY, xs, NO_SETS), x);
    assert Folded(EMPTY, [x], NO_SETS) == Added(EMPTY, x, None);
  }

  // ----- the algebra of merging -----

  lemma WrapU64Assoc(a: int, b: int, c: int)
    ensures WrapU64(WrapU64(a + b) + c) == WrapU64(a + WrapU64(b + c))
  {
    assert WrapU64(a + b) == a + b - (a + b) / TWO_64 * TWO_64;
    assert WrapU64(b + c) == b + c - (b + c) / TWO_64 * TWO_64;
  }

  lemma WrapI64Assoc(a: int, b: int, c: int)
    ensures WrapI64(WrapI64(a + b) + c) == WrapI64(a + WrapI64(b + c))
  {
    hide WrapI64;
    var p := Turns(a + b);
    var q := Turns(b + c);
    WholeTurns(a + b + c, -p);
    WholeTurns(a + b + c, -q);
  }

  /** A wrapped value is the original less some whole turns of the register, and whole turns vanish. */
  lemma Turns(x: int) returns (k: int)
    ensures WrapI64(x) == x - k * TWO_64
  {
    k := x / TWO_64 + if x % TWO_64 <= MAX_I64 then 0 else 1;
  }

  lemma WholeTurns(x: int, k: int)
    ensures WrapI64(x + k * TWO_64) == WrapI64(x)
  {
  }

  lemma AddAssoc(a: Option<i64>, b: Option<i64>, c: Option<i64>)
    ensures AddGasI64(AddGasI64(a, b), c) == AddGasI64(a, AddGasI64(b, c))
  {
    if a.Some? && b.Some? && c.Some? { WrapI64Assoc(a.value, b.value, c.value); }
  }

  lemma MaxEachAssoc(a: seq<u64>, b: seq<u64>, c: seq<u64>)
    ensures MaxEach(MaxEach(a, b), c) == MaxEach(a, MaxEach(b, c))
  {
  }

  lemma MaxEachComm(a: seq<u64>, b: seq<u64>)
    ensures MaxEach(a, b) == MaxEach(b, a)
  {
  }

  lemma MergeAssoc(a: Bucket, b: Bucket, c: Bucket)
    requires Whole(a) && Whole(b) && Whole(c)
    ensures Merge(Merge(a, b), c) == Merge(a, Merge(b, c))
  {
    hide AddGasI64, MaxEach, WrapU64;
    WrapU64Assoc(a.gasUsed, b.gasUsed, c.gasUsed);
    AddAssoc(a.posterGas, b.posterGas, c.posterGas);
    MaxEachAssoc(a.backlogsMax, b.backlogsMax, c.backlogsMax);
  }

  lemma MergeComm(a: Bucket, b: Bucket)
    requires Whole(a) && Whole(b) && a.ending.lastBlock != b.ending.lastBlock
    ensures Merge(a, b) == Merge(b, a)
  {
    hide MaxEach, WrapU64, WrapI64;
    MaxEachComm(a.backlogsMax, b.backlogsMax);
  }

  // ----- lists of blocks -----

  ghost predicate Distinct(xs: seq<Block>) {
    forall i, j :: 0 <= i < j < |xs| ==> xs[i].number != xs[j].number
  }

  ghost predicate Apart(xs: seq<Block>, ys: seq<Block>) {
    forall i, j :: 0 <= i < |xs| && 0 <= j < |ys| ==> xs[i].number != ys[j].number
  }

  lemma {:induction false} ConcatIsMerge(xs: seq<Block>, ys: seq<Block>)
    requires xs != [] && ys != []
    ensures Plain(xs + ys) == Merge(Plain(xs), Plain(ys))
    decreases |ys|
  {
    hide Plain, Merge;
    var n := |ys| - 1;
    assert ys == ys[..n] + [ys[n]];
    assert xs + ys == (xs + ys[..n]) + [ys[n]];
    AppendIsMerge(xs + ys[..n], ys[n]);
    if n == 0 {
      assert xs + ys[..n] == xs && ys == [ys[n]];
    } else {
      ConcatIsMerge(xs, ys[..n]);
      AppendIsMerge(ys[..n], ys[n]);
      PlainWhole(xs);
      PlainWhole(ys[..n]);
      PlainWhole([ys[n]]);
      MergeAssoc(Plain(xs), Plain(ys[..n]), Plain([ys[n]]));
    }
  }

  lemma {:induction false} LastIsAMember(xs: seq<Block>)
    requires xs != []
    ensures exists i :: 0 <= i < |xs| && Plain(xs).ending.lastBlock == xs[i].number
  {
    hide PosterFees, FloorFees, SurplusFees, MaxEach, ExtendArbOS, Block.ReplayError, Block.Known, Block.PosterKnown;
    var n := |xs| - 1;
    if n == 0 {
      assert xs[..n] == [];
      assert Plain(xs).ending.lastBlock == xs[0].number;
    } else {
      LastIsAMember(xs[..n]);
      var i :| 0 <= i < n && Plain(xs[..n]).ending.lastBlock == xs[..n][i].number;
      assert xs[..n][i] == xs[i];
      assert Plain(xs).ending.lastBlock == xs[n].number || Plain(xs).ending.lastBlock == xs[i].number;
    }
  }

  lemma SwapBatches(xs: seq<Block>, ys: seq<Block>)
    requires Apart(xs, ys)
    ensures Plain(xs + ys) == Plain(ys + xs)
  {
    hide Plain, Merge;
    if xs == [] || ys == [] {
      assert xs + ys == ys + xs;
    } else {
      ConcatIsMerge(xs, ys);
      ConcatIsMerge(ys, xs);
      PlainWhole(xs);
      PlainWhole(ys);
      LastIsAMember(xs);
      LastIsAMember(ys);
      MergeComm(Plain(xs), Plain(ys));
    }
  }

  /** Moving one block to the front changes nothing. */
  lemma ToFront(xs: seq<Block>, k: nat)
    requires k < |xs| && Distinct(xs)
    ensures Plain(xs) == Plain([xs[k]] + Without(xs, k))
  {
    hide Plain, Merge;
    var p, x, q := xs[..k], [xs[k]], xs[k + 1..];
    assert xs == (p + x) + q;
    assert x + (p + q) == (x + p) + q;
    SwapBatches(p, x);
    if q != [] {
      ConcatIsMerge(p + x, q);
      ConcatIsMerge(x + p, q);
    } else {
      assert (p + x) + q == p + x && (x + p) + q == x + p;
    }
  }

  function Without<T>(s: seq<T>, k: nat): (r: seq<T>)
    requires k < |s|
    ensures |r| == |s| - 1
  {
    s[..k] + s[k + 1..]
  }

  lemma WithoutOne<T>(s: seq<T>, k: nat)
    requires k < |s|
    ensures multiset(Without(s, k)) == multiset(s) - multiset{s[k]}
  {
    assert s == s[..k] + [s[k]] + s[k + 1..];
  }

  lemma DistinctWithout(xs: seq<Block>, k: nat)
    requires k < |xs| && Distinct(xs)
    ensures Distinct(Without(xs, k))
  {
    var r := Without(xs, k);
    assert forall i :: 0 <= i < |r| ==> r[i] == if i < k then xs[i] else xs[i + 1];
  }

  /** The order of the blocks does not matter. */
  lemma {:induction false} OrderIrrelevant(xs: seq<Block>, ys: seq<Block>)
    requires multiset(xs) == multiset(ys) && Distinct(xs) && Distinct(ys)
    ensures Plain(xs) == Plain(ys)
    decreases |xs|
  {
    hide Plain, Merge, Distinct;
    assert |xs| == |multiset(xs)| == |multiset(ys)| == |ys|;
    if xs != [] {
      assert xs[0] in multiset(ys);
      var k :| 0 <= k < |ys| && ys[k] == xs[0];
      WithoutOne(xs, 0);
      WithoutOne(ys, k);
      DistinctWithout(xs, 0);
      DistinctWithout(ys, k);
      OrderIrrelevant(Without(xs, 0), Without(ys, k));
      ToFront(xs, 0);
      ToFront(ys, k);
      if |xs| > 1 {
        ConcatIsMerge([xs[0]], Without(xs, 0));
        ConcatIsMerge([xs[0]], Without(ys, k));
      }
    }
  }

  // ----- any plan of batches and merges -----

  /** Batches built on their own and merged pairwise in any shape. */
  datatype Plan = Batch(rows: seq<Block>) | Join(left: Plan, right: Plan)

  function Evaluate(p: Plan, sets: Sets): Bucket {
    match p
    case Batch(rows) => Built(rows, sets)
    case Join(l, r) => Merge(Evaluate(l, sets), Evaluate(r, sets))
  }

  function RowsOf(p: Plan): seq<Block> {
    match p
    case Batch(rows) => rows
    case Join(l, r) => RowsOf(l) + RowsOf(r)
  }

  ghost predicate NonEmpty(p: Plan) {
    match p
    case Batch(rows) => rows != []
    case Join(l, r) => NonEmpty(l) && NonEmpty(r)
  }

  lemma {:induction false} PlanIsOnePass(p: Plan, sets: Sets)
    requires NonEmpty(p)
    ensures RowsOf(p) != [] && Aside(Evaluate(p, sets)) == Plain(RowsOf(p))
  {
    hide Plain, Merge, Built, Aside;
    match p
    case Batch(rows) => AsideBuilt(rows, sets);
    case Join(l, r) =>
      PlanIsOnePass(l, sets);
      PlanIsOnePass(r, sets);
      AsideMerge(Evaluate(l, sets), Evaluate(r, sets));
      ConcatIsMerge(RowsOf(l), RowsOf(r));
      PlainAside(RowsOf(p));
  }

  lemma PlainAside(xs: seq<Block>)
    requires xs != []
    ensures Aside(Plain(xs)) == Plain(xs)
  {
    hide Plain;
    PlainWhole(xs);
  }

  /** For any partition of blocks with distinct numbers into non-empty batches, merged in any order and
      grouping, the result is the one-pass bucket over the blocks in any order. */
  lemma MergesEqualOnePass(p: Plan, sets: Sets, xs: seq<Block>, others: Sets)
    requires NonEmpty(p) && multiset(xs) == multiset(RowsOf(p))
    requires Distinct(xs) && Distinct(RowsOf(p))
    ensures Aside(Evaluate(p, sets)) == Aside(Built(xs, others))
  {
    hide Plain, Merge, Built, Aside;
    PlanIsOnePass(p, sets);
    OrderIrrelevant(xs, RowsOf(p));
    AsideBuilt(xs, others);
  }

  // ----- conservation -----

  lemma SplitOfOne(x: Block)
    requires x.DestinationsKnown()
    ensures x.baseFee * x.gasUsed == FloorFees(x) + SurplusFees(x) + PosterFees(x)
  {
    var fee, gas, poster := x.baseFee, x.gasUsed, x.posterGas.value;
    assert fee * gas == fee * (gas - poster) + fee * poster;
  }

  ghost predicate Conserves(b: Bucket) {
    b.floorFees.Some? && b.surplusFees.Some? ==>
      b.posterFees.Some? && b.fees == b.floorFees.value + b.surplusFees.value + b.posterFees.value
  }

  lemma AddedConserves(b: Bucket, x: Block, setID: Option<int>)
    requires Conserves(b) && b.posterGas.Some? == b.posterFees.Some?
    ensures Conserves(Added(b, x, setID)) && Added(b, x, setID).posterGas.Some? == Added(b, x, setID).posterFees.Some?
  {
    hide PosterFees, FloorFees, SurplusFees, MaxEach, ExtendArbOS, Block.ReplayError, EndingOf, Block.Known;
    if x.DestinationsKnown() { SplitOfOne(x); }
  }

  lemma {:induction false} FoldedConserves(xs: seq<Block>, sets: Sets)
    ensures Conserves(Folded(EMPTY, xs, sets))
    ensures Folded(EMPTY, xs, sets).posterGas.Some? == Folded(EMPTY, xs, sets).posterFees.Some?
  {
    hide Added;
    if xs != [] {
      var n := |xs| - 1;
      FoldedConserves(xs[..n], sets);
      AddedConserves(Folded(EMPTY, xs[..n], sets), xs[n], sets(xs[n].number));
    }
  }

  /** Whenever a merged bucket shows a split, it is exact: fees are floor plus surplus plus poster. */
  lemma {:induction false} FeesSplitExactly(p: Plan, sets: Sets)
    ensures Conserves(Evaluate(p, sets))
  {
    match p
    case Batch(rows) =>
      hide Folded;
      FoldedConserves(rows, sets);
    case Join(l, r) =>
      FeesSplitExactly(l, sets);
      FeesSplitExactly(r, sets);
      MergeConserves(Evaluate(l, sets), Evaluate(r, sets));
  }

  lemma MergeConserves(a: Bucket, b: Bucket)
    requires Conserves(a) && Conserves(b)
    ensures Conserves(Merge(a, b))
  {
    hide MaxEach, AddGasI64, MergeArbOS, MaskEnding;
  }
}
