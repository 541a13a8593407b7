/** What each column of a bucket holds, over the block rows it was built or merged from (internal/db/bucket.go):
    exact sums, extremes that are attained, and the columns of the highest block. */
module BucketMeaning {
  import opened Words
  import opened Buckets
  import opened BucketLaws

  ghost function Total(xs: seq<Block>, f: Block -> int): int
    decreases |xs|
  {
    if xs == [] then 0 else Total(xs[..|xs| - 1], f) + f(xs[|xs| - 1])
  }

  // ----- what one block contributes -----

  ghost function Gas(x: Block): int { x.gasUsed }
  ghost function Fee(x: Block): int { x.baseFee * x.gasUsed }
  ghost function Rate(x: Block): int { x.baseFee }
  ghost function Poster(x: Block): int { if x.posterGas.Some? then x.posterGas.value else 0 }
  ghost function PosterFee(x: Block): int { x.baseFee * Poster(x) }

  /** Compute gas pays the lesser of minimum and base fee as floor, and what the base fee exceeds the minimum by as
      surplus. */
  ghost function Floor(x: Block): int {
    if x.minBaseFee.None? then 0 else (if x.baseFee < x.minBaseFee.value then x.baseFee else x.minBaseFee.value) * (x.gasUsed - Poster(x))
  }

  ghost function Surplus(x: Block): int {
    if x.minBaseFee.None? || x.baseFee <= x.minBaseFee.value then 0 else (x.baseFee - x.minBaseFee.value) * (x.gasUsed - Poster(x))
  }

  ghost predicate PosterValid(x: Block) { x.posterGas.Some? && 0 <= x.posterGas.value <= x.gasUsed }
  ghost predicate Priced(x: Block) { x.version >= PRICING_FULL && x.minBaseFee.Some? }

  ghost predicate AllValid(xs: seq<Block>) { forall i :: 0 <= i < |xs| ==> PosterValid(xs[i]) }
  ghost predicate AllPriced(xs: seq<Block>) { forall i :: 0 <= i < |xs| ==> Priced(xs[i]) }

  // ----- the sums -----

  /** The running sums of the builder, before the pricing version masks anything. */
  ghost predicate Sums(b: Bucket, xs: seq<Block>) { GasSums(b, xs) && PosterSums(b, xs) && SplitSums(b, xs) }

  ghost predicate GasSums(b: Bucket, xs: seq<Block>) {
    && b.blocks == |xs|
    && b.gasUsed == WrapU64(Total(xs, Gas))
    && b.fees == Total(xs, Fee)
    && b.feeSum == Some(Total(xs, Rate))
    && b.version == (if AllPriced(xs) then PRICING_FULL else PRICING_UNKNOWN)
  }

  ghost predicate PosterSums(b: Bucket, xs: seq<Block>) {
    && b.posterGas == (if AllValid(xs) then Some(WrapI64(Total(xs, Poster))) else None)
    && b.posterFees == (if AllValid(xs) then Some(Total(xs, PosterFee)) else None)
  }

  ghost predicate SplitSums(b: Bucket, xs: seq<Block>) {
    && b.floorFees == (if AllValid(xs) && AllPriced(xs) then Some(Total(xs, Floor)) else None)
    && b.surplusFees == (if AllValid(xs) && AllPriced(xs) then Some(Total(xs, Surplus)) else None)
  }

  /** The exact rate: floor and surplus of one block, whatever is known. */
  lemma SplitMeans(x: Block)
    requires PosterValid(x) && Priced(x)
    ensures FloorFees(x) == Floor(x) && SurplusFees(x) == Surplus(x) && PosterFees(x) == PosterFee(x)
    ensures FloorFees(x) >= 0 && SurplusFees(x) >= 0
  {
  }

  lemma AllMore(xs: seq<Block>)
    requires xs != []
    ensures var front, x := xs[..|xs| - 1], xs[|xs| - 1];
            (AllValid(xs) <==> AllValid(front) && PosterValid(x)) && (AllPriced(xs) <==> AllPriced(front) && Priced(x))
  {
    var front := xs[..|xs| - 1];
    assert xs == front + [xs[|xs| - 1]];
  }

  lemma WrapAdds(a: int, b: int)
    ensures WrapU64(WrapU64(a) + b) == WrapU64(a + b) && WrapI64(WrapI64(a) + b) == WrapI64(a + b)
  {
    var k := Turns(a);
    WholeTurns(a + b, 0 - k);
    assert WrapI64(a) + b == a + b + (0 - k) * TWO_64;
    UnsignedTurns(a, b);
  }

  lemma UnsignedTurns(a: int, b: int)
    ensures WrapU64(WrapU64(a) + b) == WrapU64(a + b)
  {
  }

  lemma TotalMore(xs: seq<Block>, x: Block, f: Block -> int)
    ensures Total(xs + [x], f) == Total(xs, f) + f(x)
  {
    assert (xs + [x])[..|xs|] == xs;
  }

  lemma AllOneMore(xs: seq<Block>, x: Block)
    ensures AllValid(xs + [x]) <==> AllValid(xs) && PosterValid(x)
    ensures AllPriced(xs + [x]) <==> AllPriced(xs) && Priced(x)
  {
    assert (xs + [x])[..|xs|] == xs;
    AllMore(xs + [x]);
  }

  lemma AddedGas(b: Bucket, xs: seq<Block>, x: Block, setID: Option<int>)
    requires GasSums(b, xs)
    ensures GasSums(Added(b, x, setID), xs + [x])
  {
    hide Total, WrapU64, WrapI64, MaxEach, ExtendArbOS, Block.ReplayError, FloorFees, SurplusFees, PosterFees, AllValid, AllPriced, EndingOf;
    TotalMore(xs, x, Gas);
    TotalMore(xs, x, Fee);
    TotalMore(xs, x, Rate);
    AllOneMore(xs, x);
    WrapAdds(Total(xs, Gas), x.gasUsed);
  }

  lemma AddedPoster(b: Bucket, xs: seq<Block>, x: Block, setID: Option<int>)
    requires PosterSums(b, xs)
    ensures PosterSums(Added(b, x, setID), xs + [x])
  {
    hide Total, WrapU64, WrapI64, MaxEach, ExtendArbOS, Block.ReplayError, FloorFees, SurplusFees, PosterFees, AllValid, AllPriced, EndingOf;
    TotalMore(xs, x, Poster);
    TotalMore(xs, x, PosterFee);
    AllOneMore(xs, x);
    WrapAdds(Total(xs, Poster), Poster(x));
    if PosterValid(x) { PosterFeesMean(x); }
  }

  lemma AddedSplit(b: Bucket, xs: seq<Block>, x: Block, setID: Option<int>)
    requires SplitSums(b, xs)
    ensures SplitSums(Added(b, x, setID), xs + [x])
  {
    hide Total, WrapU64, WrapI64, MaxEach, ExtendArbOS, Block.ReplayError, FloorFees, SurplusFees, PosterFees, AllValid, AllPriced, EndingOf, Floor,
      Surplus;
    TotalMore(xs, x, Floor);
    TotalMore(xs, x, Surplus);
    AllOneMore(xs, x);
    if PosterValid(x) && Priced(x) { SplitMeans(x); }
  }

  lemma AddedSums(b: Bucket, xs: seq<Block>, x: Block, setID: Option<int>)
    requires Sums(b, xs)
    ensures Sums(Added(b, x, setID), xs + [x])
  {
    hide Added, GasSums, PosterSums, SplitSums;
    AddedGas(b, xs, x, setID);
    AddedPoster(b, xs, x, setID);
    AddedSplit(b, xs, x, setID);
  }

  lemma PosterFeesMean(x: Block)
    requires PosterValid(x)
    ensures PosterFees(x) == PosterFee(x)
  {
  }

  lemma {:induction false} FoldedSums(xs: seq<Block>, sets: Sets)
    ensures Sums(Folded(EMPTY, xs, sets), xs)
    decreases |xs|
  {
    hide Added;
    if xs == [] {
      EmptySums();
    } else {
      hide Sums;
      var front := xs[..|xs| - 1];
      FoldedSums(front, sets);
      AddedSums(Folded(EMPTY, front, sets), front, xs[|xs| - 1], sets(xs[|xs| - 1].number));
      assert xs == front + [xs[|xs| - 1]];
    }
  }

  lemma EmptySums()
    ensures Sums(EMPTY, [])
  {
    assert WrapU64(0) == 0 && WrapI64(0) == 0;
  }

  // ----- the extremes -----

  ghost function Error(x: Block): int { x.ReplayError() }

  /** The largest value f takes, at least zero; the lower and the upper fee are taken by rows of the list. */
  ghost predicate Extremes(b: Bucket, xs: seq<Block>) {
    && (forall i :: 0 <= i < |xs| ==> b.feeMin <= xs[i].baseFee <= b.feeMax && Error(xs[i]) <= b.replayError)
    && (xs != [] ==> exists i :: 0 <= i < |xs| && xs[i].baseFee == b.feeMin)
    && (xs != [] ==> exists i :: 0 <= i < |xs| && xs[i].baseFee == b.feeMax)
    && (b.replayError == 0 || exists i :: 0 <= i < |xs| && Error(xs[i]) == b.replayError)
    && (xs == [] ==> b.feeMax == 0)
  }

  lemma AddedExtremes(b: Bucket, xs: seq<Block>, x: Block, setID: Option<int>)
    requires Extremes(b, xs) && b.blocks == |xs| && b.replayError >= 0
    ensures Extremes(Added(b, x, setID), xs + [x])
  {
    var more, c := xs + [x], Added(b, x, setID);
    assert more[|xs|] == x;
    hide Added, Block.ReplayError;
    AddedExtreme(b, x, setID);
    if c.feeMin != x.baseFee {
      var i :| 0 <= i < |xs| && xs[i].baseFee == b.feeMin;
      assert more[i] == xs[i];
    }
    if c.feeMax != x.baseFee {
      var i :| 0 <= i < |xs| && xs[i].baseFee == b.feeMax;
      assert more[i] == xs[i];
    }
    if c.replayError != Error(x) && c.replayError != 0 {
      var i :| 0 <= i < |xs| && Error(xs[i]) == b.replayError;
      assert more[i] == xs[i];
    }
  }

  lemma AddedExtreme(b: Bucket, x: Block, setID: Option<int>)
    ensures var c := Added(b, x, setID);
            && c.feeMin == (if b.blocks == 0 || x.baseFee < b.feeMin then x.baseFee else b.feeMin)
            && c.feeMax == Max(b.feeMax, x.baseFee) && c.replayError == Max(b.replayError, Error(x))
            && c.blocks == b.blocks + 1 && Error(x) >= 0
  {
    hide WrapU64, WrapI64, MaxEach, ExtendArbOS;
  }

  lemma {:induction false} FoldedExtremes(xs: seq<Block>, sets: Sets)
    ensures var b := Folded(EMPTY, xs, sets); Extremes(b, xs) && b.blocks == |xs| && b.replayError >= 0
    decreases |xs|
  {
    hide Added;
    if xs != [] {
      hide Extremes;
      var front, x := xs[..|xs| - 1], xs[|xs| - 1];
      FoldedExtremes(front, sets);
      AddedExtremes(Folded(EMPTY, front, sets), front, x, sets(x.number));
      AddedExtreme(Folded(EMPTY, front, sets), x, sets(x.number));
      assert xs == front + [x];
    }
  }

  // ----- the ending -----

  /** The columns that follow the highest block: the last row with the highest number. */
  ghost predicate Ends(b: Bucket, xs: seq<Block>) {
    if xs == [] then b.ending == EMPTY.ending
    else exists i :: 0 <= i < |xs| && Highest(xs, i) && b.ending == EndingOf(xs[i])
  }

  ghost predicate Highest(xs: seq<Block>, i: nat)
    requires i < |xs|
  {
    forall j :: 0 <= j < |xs| ==> xs[j].number <= xs[i].number && (j > i ==> xs[j].number < xs[i].number)
  }

  lemma AddedEnds(b: Bucket, xs: seq<Block>, x: Block, setID: Option<int>)
    requires Ends(b, xs)
    ensures Ends(Added(b, x, setID), xs + [x])
  {
    var more := xs + [x];
    AddedEnding(b, x, setID);
    hide Added;
    assert more[|xs|] == x;
    if x.number >= b.ending.lastBlock {
      assert Highest(more, |xs|);
    } else {
      var i :| 0 <= i < |xs| && Highest(xs, i) && b.ending == EndingOf(xs[i]);
      assert more[i] == xs[i] && Highest(more, i);
    }
  }

  lemma AddedEnding(b: Bucket, x: Block, setID: Option<int>)
    ensures Added(b, x, setID).ending == if x.number >= b.ending.lastBlock then EndingOf(x) else b.ending
  {
    hide WrapU64, WrapI64, MaxEach, ExtendArbOS, EndingOf;
  }

  lemma {:induction false} FoldedEnds(xs: seq<Block>, sets: Sets)
    ensures Ends(Folded(EMPTY, xs, sets), xs)
    decreases |xs|
  {
    hide Added, Highest;
    if xs == [] {
      assert Ends(EMPTY, []);
    } else {
      hide Ends;
      var front, x := xs[..|xs| - 1], xs[|xs| - 1];
      FoldedEnds(front, sets);
      AddedEnds(Folded(EMPTY, front, sets), front, x, sets(x.number));
      assert xs == front + [x];
    }
  }

  // ----- the ranges -----

  /** Slot by slot the largest backlog of any row, and the span of ArbOS versions when every row has one. */
  ghost predicate Ranges(b: Bucket, xs: seq<Block>) {
    && (forall i :: 0 <= i < |xs| ==> Dominates(b.backlogsMax, xs[i].backlogs))
    && (forall k :: 0 <= k < |b.backlogsMax| ==> Attained(b, xs, k))
    && (xs != [] ==> (b.arbos.Some? <==> forall i :: 0 <= i < |xs| ==> xs[i].arbos.Some?))
    && (xs != [] && b.arbos.Some? ==> Spans(b.arbos.value, xs))
  }

  ghost predicate Dominates(a: seq<u64>, b: seq<u64>) { |b| <= |a| && forall k :: 0 <= k < |b| ==> b[k] <= a[k] }

  ghost predicate Attained(b: Bucket, xs: seq<Block>, k: nat)
    requires k < |b.backlogsMax|
  {
    exists i :: 0 <= i < |xs| && k < |xs[i].backlogs| && xs[i].backlogs[k] == b.backlogsMax[k]
  }

  ghost predicate Spans(range: (i64, i64), xs: seq<Block>) {
    && (forall i :: 0 <= i < |xs| && xs[i].arbos.Some? ==> range.0 <= xs[i].arbos.value <= range.1)
    && (exists i :: 0 <= i < |xs| && xs[i].arbos == Some(range.0))
    && (exists i :: 0 <= i < |xs| && xs[i].arbos == Some(range.1))
  }

  lemma AddedRange(b: Bucket, x: Block, setID: Option<int>)
    ensures Added(b, x, setID).backlogsMax == MaxEach(b.backlogsMax, x.backlogs)
    ensures Added(b, x, setID).arbos == ExtendArbOS(b.arbos, x.arbos, b.blocks == 0)
  {
    hide WrapU64, WrapI64, MaxEach, ExtendArbOS, EndingOf;
  }

  lemma AddedMaxima(b: Bucket, xs: seq<Block>, x: Block, setID: Option<int>)
    requires Ranges(b, xs)
    ensures var more, c := xs + [x], Added(b, x, setID);
            && (forall i :: 0 <= i < |more| ==> Dominates(c.backlogsMax, more[i].backlogs))
            && (forall k :: 0 <= k < |c.backlogsMax| ==> Attained(c, more, k))
  {
    AddedRange(b, x, setID);
    hide Added, Spans;
    var more, c := xs + [x], Added(b, x, setID);
    forall i | 0 <= i < |more| ensures Dominates(c.backlogsMax, more[i].backlogs) {
      if i < |xs| { assert more[i] == xs[i] && Dominates(b.backlogsMax, xs[i].backlogs); }
    }
    forall k | 0 <= k < |c.backlogsMax| ensures Attained(c, more, k) {
      if k < |x.backlogs| && x.backlogs[k] == c.backlogsMax[k] {
        assert more[|xs|] == x;
      } else {
        assert Attained(b, xs, k);
        var i :| 0 <= i < |xs| && k < |xs[i].backlogs| && xs[i].backlogs[k] == b.backlogsMax[k];
        assert more[i] == xs[i];
      }
    }
  }

  lemma AddedSpan(b: Bucket, xs: seq<Block>, x: Block, setID: Option<int>)
    requires Ranges(b, xs) && b.blocks == |xs|
    ensures var more, c := xs + [x], Added(b, x, setID);
            && (c.arbos.Some? <==> forall i :: 0 <= i < |more| ==> more[i].arbos.Some?)
            && (c.arbos.Some? ==> Spans(c.arbos.value, more))
  {
    AddedRange(b, x, setID);
    hide Added, MaxEach, Attained;
    var more, c := xs + [x], Added(b, x, setID);
    assert more[|xs|] == x && forall i :: 0 <= i < |xs| ==> more[i] == xs[i];
    if c.arbos.Some? && xs != [] {
      assert b.arbos.Some? && Spans(b.arbos.value, xs);
      var lo :| 0 <= lo < |xs| && xs[lo].arbos == Some(b.arbos.value.0);
      var hi :| 0 <= hi < |xs| && xs[hi].arbos == Some(b.arbos.value.1);
      assert more[lo].arbos == Some(b.arbos.value.0) && more[hi].arbos == Some(b.arbos.value.1);
    }
  }

  lemma {:induction false} FoldedRanges(xs: seq<Block>, sets: Sets)
    ensures Ranges(Folded(EMPTY, xs, sets), xs) && Folded(EMPTY, xs, sets).blocks == |xs|
    decreases |xs|
  {
    hide Added, Spans, Attained;
    if xs != [] {
      var front, x := xs[..|xs| - 1], xs[|xs| - 1];
      FoldedRanges(front, sets);
      AddedMaxima(Folded(EMPTY, front, sets), front, x, sets(x.number));
      AddedSpan(Folded(EMPTY, front, sets), front, x, sets(x.number));
      AddedExtreme(Folded(EMPTY, front, sets), x, sets(x.number));
      assert xs == front + [x];
    }
  }

  // ----- built and merged buckets -----

  /** Every column of a bucket over its rows. Fees split only where poster gas and pricing are known in every row; pricing
      unknown in one hides the minimum fee and the constraint exponents. */
  ghost predicate Means(b: Bucket, xs: seq<Block>)
    requires xs != []
  {
    && Sums(b, xs) && Extremes(b, xs)
    && b.feeAvg == Total(xs, Rate) / |xs|
    && Shows(b, xs)
    && Ranges(b, xs)
  }

  ghost predicate Shows(b: Bucket, xs: seq<Block>) {
    exists i :: 0 <= i < |xs| && Highest(xs, i) && b.ending == Masked(xs[i], AllPriced(xs))
  }

  ghost function Masked(x: Block, priced: bool): Ending {
    if priced then EndingOf(x) else EndingOf(x).(bips := None, minBaseFee := None)
  }

  lemma BuiltMeans(xs: seq<Block>, sets: Sets)
    requires xs != []
    ensures Means(Built(xs, sets), xs)
  {
    FoldedSums(xs, sets);
    FoldedExtremes(xs, sets);
    FoldedEnds(xs, sets);
    FoldedRanges(xs, sets);
    hide Sums, Extremes, Ends, Ranges, Folded;
    FinishedMeans(Folded(EMPTY, xs, sets), xs);
  }

  lemma FinishedMeans(f: Bucket, xs: seq<Block>)
    requires xs != [] && Sums(f, xs) && Extremes(f, xs) && Ends(f, xs) && Ranges(f, xs)
    ensures Means(Finished(f), xs)
  {
    assert Shows(Finished(f), xs) by {
      hide Highest, EndingOf, AllPriced;
      var i :| 0 <= i < |xs| && Highest(xs, i) && f.ending == EndingOf(xs[i]);
      assert Finished(f).ending == Masked(xs[i], AllPriced(xs));
    }
    SameExtremes(f, xs);
    SameRanges(f, Finished(f), xs);
    hide Ranges, Extremes, Shows, AllValid, AllPriced, WrapU64, WrapI64;
    assert Sums(Finished(f), xs);
  }

  lemma SameRanges(a: Bucket, b: Bucket, xs: seq<Block>)
    requires Ranges(a, xs) && a.backlogsMax == b.backlogsMax && a.arbos == b.arbos
    ensures Ranges(b, xs)
  {
    hide Spans;
    forall k | 0 <= k < |b.backlogsMax| ensures Attained(b, xs, k) { assert Attained(a, xs, k); }
  }

  lemma SameExtremes(f: Bucket, xs: seq<Block>)
    requires Extremes(f, xs)
    ensures Extremes(Finished(f), xs)
  {
    hide Block.ReplayError;
  }

  /** Any plan of merges over any partition of blocks with distinct numbers: the merged bucket's columns are those of
      all its rows. */
  lemma MergedMeans(p: Plan, sets: Sets)
    requires NonEmpty(p) && Distinct(RowsOf(p)) && RowsOf(p) != []
    ensures Means(Evaluate(p, sets), RowsOf(p))
  {
    MergesEqualOnePass(p, sets, RowsOf(p), sets);
    BuiltMeans(RowsOf(p), sets);
    MeansAside(Built(RowsOf(p), sets), Evaluate(p, sets), RowsOf(p));
  }

  lemma MeansAside(a: Bucket, b: Bucket, xs: seq<Block>)
    requires xs != [] && Means(a, xs) && Aside(a) == Aside(b)
    ensures Means(b, xs)
  {
    assert a.(setID := None) == b.(setID := None);
    assert b == a.(setID := b.setID);
    SameRanges(a, b, xs);
    hide AllValid, AllPriced, Highest, WrapU64, WrapI64, Ranges;
    assert Sums(b, xs);
    assert Extremes(b, xs);
  }

  // ----- the constraint set id -----

  /** Row i is the last whose block has a set. */
  ghost predicate LastSet(xs: seq<Block>, sets: Sets, i: nat) {
    i < |xs| && sets(xs[i].number).Some? && forall j :: i < j < |xs| ==> sets(xs[j].number).None?
  }

  lemma AddedSet(b: Bucket, x: Block, setID: Option<int>)
    ensures Added(b, x, setID).setID == if x.number >= b.ending.lastBlock && setID.Some? then setID else b.setID
    ensures Added(b, x, setID).ending.lastBlock == if x.number >= b.ending.lastBlock then x.number else b.ending.lastBlock
  {
    hide WrapU64, WrapI64, MaxEach, ExtendArbOS;
  }

  ghost predicate Rising(xs: seq<Block>) { forall i, j :: 0 <= i < j < |xs| ==> xs[i].number < xs[j].number }

  /** Over rows in number order, as a rebuild scans them, the bucket carries the set of the highest block that has one. */
  lemma {:induction false} SetMeans(xs: seq<Block>, sets: Sets, i: nat)
    requires Rising(xs)
    ensures LastSet(xs, sets, i) ==> Built(xs, sets).setID == sets(xs[i].number)
    ensures (forall j :: 0 <= j < |xs| ==> sets(xs[j].number).None?) ==> Built(xs, sets).setID == None
    ensures xs != [] ==> Folded(EMPTY, xs, sets).ending.lastBlock == xs[|xs| - 1].number
    decreases |xs|
  {
    hide Added;
    if xs != [] {
      var front, x := xs[..|xs| - 1], xs[|xs| - 1];
      SetMeans(front, sets, i);
      AddedSet(Folded(EMPTY, front, sets), x, sets(x.number));
      assert front != [] ==> front[|front| - 1] == xs[|xs| - 2];
      assert LastSet(xs, sets, i) && i < |front| ==> LastSet(front, sets, i);
    }
  }
}
