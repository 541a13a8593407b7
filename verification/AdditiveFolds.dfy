/** What the additive folds leave in the buckets: below the live boundary every bucket is the builder's over exactly the
    blocks folded there since the last deletion, and a window past the prune frontier gains exactly the rows a fill
    recovers for it (commitFill of internal/collector/fill.go, the backfill's commit of backfill.go). */
module AdditiveFolds {
  import opened Words
  import opened Buckets
  import opened BucketLaws
  import opened BucketMeaning
  import opened Windows
  import opened Store
  import opened Chain

  /** The blocks stamped in [from, to) at or above the watermark, in order. */
  ghost function Due(rows: seq<Block>, from: nat, to: nat, folded: u64): seq<Block>
    decreases |rows|
  {
    if rows == [] then []
    else
      var n := |rows| - 1;
      Due(rows[..n], from, to, folded) + if from <= rows[n].ts < to && rows[n].number >= folded then [rows[n]] else []
  }

  ghost function At(d: Db, w: nat, s: nat): Option<Bucket> {
    if Key(w, s) in d.buckets then Some(d.buckets[Key(w, s)]) else None
  }

  /** The bucket of a window is the builder's over these blocks, the set id aside; none over none. */
  ghost predicate Holds(d: Db, w: nat, s: nat, xs: seq<Block>) { HoldsBucket(At(d, w, s), xs) }

  ghost predicate HoldsBucket(b: Option<Bucket>, xs: seq<Block>) {
    if xs == [] then b.None? else b.Some? && Aside(b.value) == Plain(xs)
  }

  // ----- one fold -----

  ghost function Onto(b: Option<Bucket>, more: Bucket): Bucket { if b.Some? then Merge(b.value, more) else more }

  lemma FoldedMore(d: Db, es: seq<Entry>, e: Entry, w: nat, s: nat)
    ensures var before := At(FoldedIn(d, es), w, s);
            At(FoldedIn(d, es + [e]), w, s) == if e.width == w && e.start == s then Some(Onto(before, e.bucket)) else before
  {
    hide Merge;
    assert (es + [e])[..|es|] == es;
  }

  lemma NoFold(d: Db)
    ensures FoldedIn(d, []) == d
  {
  }

  lemma {:induction false} FoldsJoin(d: Db, a: seq<Entry>, b: seq<Entry>)
    ensures FoldedIn(d, a + b) == FoldedIn(FoldedIn(d, a), b)
    decreases |b|
  {
    hide Merge;
    if b == [] {
      assert a + b == a;
    } else {
      assert (a + b)[..|a + b| - 1] == a + b[..|b| - 1];
      FoldsJoin(d, a, b[..|b| - 1]);
    }
  }

  /** A batch's bucket goes into its window as the batch goes onto the blocks already there. */
  lemma OntoHolds(b: Option<Bucket>, was: seq<Block>, xs: seq<Block>, sets: Sets)
    requires HoldsBucket(b, was) && xs != []
    ensures HoldsBucket(Some(Onto(b, Built(xs, sets))), was + xs)
  {
    hide Plain, Merge, Built, Aside;
    AsideBuilt(xs, sets);
    if was == [] {
      assert was + xs == xs;
    } else {
      AsideMerge(b.value, Built(xs, sets));
      ConcatIsMerge(was, xs);
      PlainAside(was + xs);
    }
  }

  lemma {:induction false} FoldGroups(d: Db, g: seq<seq<Block>>, v: Width, sets: Sets, w: Width, s: nat, was: seq<Block>)
    requires forall i :: 0 <= i < |g| ==> g[i] != []
    requires Holds(d, w, s, was) && s % w == 0
    ensures Holds(FoldedIn(d, Entries(g, v, sets)), w, s, was + if v == w then Flatten(Inside(g, w, s, w)) else [])
    decreases |g|
  {
    hide Start, Built, FoldedIn, At, HoldsBucket, Entries;
    if g == [] {
      NoGroups(v, sets, w, s);
      NoFold(d);
      assert was + [] == was;
    } else {
      var n := |g| - 1;
      var x := g[n];
      FoldGroups(d, g[..n], v, sets, w, s, was);
      assert g == g[..n] + [x];
      EntryAppended(g[..n], x, v, sets);
      OneMoreGroup(d, Entries(g[..n], v, sets), g, v, sets, w, s, was);
    }
  }

  lemma OneMoreGroup(d: Db, es: seq<Entry>, g: seq<seq<Block>>, v: Width, sets: Sets, w: Width, s: nat, was: seq<Block>)
    requires g != [] && (forall i :: 0 <= i < |g| ==> g[i] != []) && s % w == 0
    requires Holds(FoldedIn(d, es), w, s, was + if v == w then Flatten(Inside(g[..|g| - 1], w, s, w)) else [])
    ensures var x := g[|g| - 1];
            Holds(FoldedIn(d, es + [Entry(v, Start(x[0].ts, v), Built(x, sets))]), w, s,
                  was + if v == w then Flatten(Inside(g, w, s, w)) else [])
  {
    hide Start, Built, FoldedIn, At, HoldsBucket, Flatten, Inside, Onto;
    var n := |g| - 1;
    var x := g[n];
    FoldedMore(d, es, Entry(v, Start(x[0].ts, v), Built(x, sets)), w, s);
    if v == w {
      var before := Flatten(Inside(g[..n], w, s, w));
      LastGroup(g, w, s, w);
      SameWindow(x[0].ts, w, s);
      if Start(x[0].ts, w) == s {
        OntoHolds(At(FoldedIn(d, es), w, s), was + before, x, sets);
        assert (was + before) + x == was + (before + x);
      } else {
        assert before + [] == before;
      }
    }
  }

  lemma NoGroups(v: Width, sets: Sets, w: Width, s: nat)
    ensures Entries([], v, sets) == [] && Flatten(Inside([], w, s, w)) == []
  {
  }

  lemma SameWindow(ts: nat, w: Width, s: nat)
    requires s % w == 0
    ensures s <= Start(ts, w) < s + w <==> Start(ts, w) == s
  {
    hide Start;
    StartSame(ts, s, w);
    FineInCoarse(ts, w, w, s, 1);
  }

  lemma FoldWidthHolds(d: Db, rows: seq<Block>, v: Width, sets: Sets, w: Width, s: nat, was: seq<Block>)
    requires Holds(d, w, s, was) && s % w == 0
    ensures Holds(FoldedIn(d, Entries(Groups(rows, v), v, sets)), w, s, was + if v == w then Window(rows, s, w) else [])
  {
    hide Holds, FoldedIn, Entries, Groups, Flatten, Inside, Window;
    FoldGroups(d, Groups(rows, v), v, sets, w, s, was);
    InsideIsWindow(rows, w, w, s, 1);
  }

  /** Every resolution at once: a window gains the rows that lie in it. */
  lemma AllFolds(d: Db, rows: seq<Block>, sets: Sets, w: Width, s: nat, was: seq<Block>)
    requires Holds(d, w, s, was) && s % w == 0 && Stored(w)
    ensures Holds(FoldedIn(d, AllEntries(rows, sets)), w, s, was + Window(rows, s, w))
  {
    hide Holds, FoldedIn, Entries, Groups, Window;
    var a, b, c := Entries(Groups(rows, MINUTE), MINUTE, sets), Entries(Groups(rows, QUARTER), QUARTER, sets),
      Entries(Groups(rows, HOUR), HOUR, sets);
    var d1 := FoldedIn(d, a);
    var d2 := FoldedIn(d1, b);
    var more := Window(rows, s, w);
    FoldsJoin(d, a, b);
    FoldsJoin(d, a + b, c);
    assert was + [] == was && (was + more) + [] == was + more;
    FoldWidthHolds(d, rows, MINUTE, sets, w, s, was);
    FoldWidthHolds(d1, rows, QUARTER, sets, w, s, if w == MINUTE then was + more else was);
    FoldWidthHolds(d2, rows, HOUR, sets, w, s, if w == HOUR then was else was + more);
  }

  // ----- which rows a transaction folds -----

  lemma FilterLast(rows: seq<Block>, p: Test)
    requires rows != []
    ensures var x := rows[|rows| - 1]; Filter(rows, p) == Filter(rows[..|rows| - 1], p) + if p(x) then [x] else []
  {
  }

  lemma DueLast(rows: seq<Block>, from: nat, to: nat, folded: u64)
    requires rows != []
    ensures var x := rows[|rows| - 1];
            Due(rows, from, to, folded)
            == Due(rows[..|rows| - 1], from, to, folded) + if from <= x.ts < to && x.number >= folded then [x] else []
  {
  }

  lemma NoneDue(p: Test, from: nat, to: nat, folded: u64, s: nat, w: nat)
    ensures Window(Filter([], p), s, w) == [] && Due([], from, to, folded) == [] && Window([], s, w) == []
  {
  }

  lemma {:induction false} FilterIsDue(rows: seq<Block>, p: Test, s: nat, w: nat, folded: u64)
    requires forall x: Block :: s <= x.ts < s + w ==> (p(x) <==> x.number >= folded)
    ensures Window(Filter(rows, p), s, w) == Due(rows, s, s + w, folded)
    decreases |rows|
  {
    hide Window, Filter, Due;
    if rows == [] {
      NoneDue(p, s, s + w, folded, s, w);
    } else {
      var front, x := rows[..|rows| - 1], rows[|rows| - 1];
      FilterIsDue(front, p, s, w, folded);
      FilterLast(rows, p);
      DueLast(rows, s, s + w, folded);
      WindowStep(Filter(front, p), x, s, w);
      assert Filter(front, p) + [] == Filter(front, p);
    }
  }

  lemma {:induction false} DueInWindow(rows: seq<Block>, boundary: nat, folded: u64, s: nat, w: nat)
    requires s + w <= boundary
    ensures Window(Due(rows, 0, boundary, folded), s, w) == Due(rows, s, s + w, folded)
    decreases |rows|
  {
    hide Window, Due;
    if rows == [] {
      NoneDue(x => true, 0, boundary, folded, s, w);
      NoneDue(x => true, s, s + w, folded, s, w);
    } else {
      var front, x := rows[..|rows| - 1], rows[|rows| - 1];
      DueInWindow(front, boundary, folded, s, w);
      DueLast(rows, 0, boundary, folded);
      DueLast(rows, s, s + w, folded);
      var due := Due(front, 0, boundary, folded);
      WindowStep(due, x, s, w);
      assert due + [] == due;
    }
  }

  /** The boundary is an hour, so no stored window crosses it. */
  ghost predicate OnTheHour(boundary: nat) { boundary % HOUR == 0 }

  lemma BelowIsWhole(boundary: nat, w: Width, s: nat)
    requires OnTheHour(boundary) && Stored(w) && s % w == 0
    ensures boundary % w == 0 && (s < boundary ==> s + w <= boundary)
  {
    var q := boundary / HOUR;
    var k := if w == MINUTE then q * 60 else if w == QUARTER then q * 4 else q;
    assert boundary == k * w;
    ModOfMultiple(k, w);
    assert s == s / w * w;
    if s < boundary { MultiplesApart(s / w, k, w); }
  }

  lemma StartNotBelow(ts: nat, boundary: nat, w: Width)
    requires OnTheHour(boundary) && Stored(w) && ts >= boundary
    ensures Start(ts, w) >= boundary
  {
    BelowIsWhole(boundary, w, 0);
    StartAgainst(ts, w, boundary / w);
  }

  lemma {:induction false} StartOfSome(rows: seq<Block>, w: Width, s: nat)
    requires s in StartsOf(rows, w)
    ensures exists i :: 0 <= i < |rows| && Start(rows[i].ts, w) == s
    decreases |rows|
  {
    hide Start;
    var n := |rows| - 1;
    if s in StartsOf(rows[..n], w) {
      StartOfSome(rows[..n], w, s);
      var i :| 0 <= i < |rows[..n]| && Start(rows[..n][i].ts, w) == s;
      assert rows[i] == rows[..n][i];
    }
  }

  ghost predicate NoneBelow(rows: seq<Block>, boundary: nat) { forall i :: 0 <= i < |rows| ==> rows[i].ts >= boundary }

  /** Rebuilding windows of rows at or above the boundary reaches no window below it. */
  lemma RebuildSpares(d: Db, rows: seq<Block>, sets: Sets, boundary: nat, w: Width, s: nat)
    requires OnTheHour(boundary) && Stored(w) && NoneBelow(rows, boundary)
    requires s < boundary || Below(s, d.frontier)
    ensures At(RebuildAll(d, rows, sets), w, s) == At(d, w, s)
  {
    hide RebuildAll, StartsOf, Start, InWindow;
    if s < boundary && s in StartsOf(rows, w) {
      StartOfSome(rows, w, s);
      var i :| 0 <= i < |rows| && Start(rows[i].ts, w) == s;
      StartNotBelow(rows[i].ts, boundary, w);
    }
    RebuildAllEffect(d, rows, sets, w, s);
  }

  // ----- entries that lie elsewhere -----

  lemma FoldsElsewhere(d: Db, es: seq<Entry>, w: nat, s: nat)
    requires forall i :: 0 <= i < |es| ==> es[i].start != s
    ensures At(FoldedIn(d, es), w, s) == At(d, w, s)
  {
    hide InWindow, FoldedIn;
    FoldedInElsewhere(d, es, w, s);
  }

  lemma EntriesFrom(rows: seq<Block>, w: Width, sets: Sets, boundary: nat)
    requires OnTheHour(boundary) && Stored(w) && forall x :: x in rows ==> x.ts >= boundary
    ensures forall i :: 0 <= i < |Entries(Groups(rows, w), w, sets)| ==> Entries(Groups(rows, w), w, sets)[i].start >= boundary
  {
    hide Groups, Built, Start;
    GroupsStartWithRows(rows, w);
    forall i | 0 <= i < |Groups(rows, w)| ensures Start(Groups(rows, w)[i][0].ts, w) >= boundary {
      StartNotBelow(Groups(rows, w)[i][0].ts, boundary, w);
    }
  }

  lemma AllEntriesFrom(rows: seq<Block>, sets: Sets, boundary: nat)
    requires OnTheHour(boundary) && forall x :: x in rows ==> x.ts >= boundary
    ensures forall i :: 0 <= i < |AllEntries(rows, sets)| ==> AllEntries(rows, sets)[i].start >= boundary
  {
    hide Groups, Entries;
    EntriesFrom(rows, MINUTE, sets, boundary);
    EntriesFrom(rows, QUARTER, sets, boundary);
    EntriesFrom(rows, HOUR, sets, boundary);
  }

  lemma {:induction false} RecoverableAmong(d: Db, es: seq<Entry>)
    ensures forall i :: 0 <= i < |Recoverable(d, es)| ==> Recoverable(d, es)[i] in es
    decreases |es|
  {
    if es != [] {
      RecoverableAmong(d, es[..|es| - 1]);
      assert forall e :: e in es[..|es| - 1] ==> e in es;
    }
  }

  lemma RecoverableLast(d: Db, es: seq<Entry>)
    requires es != []
    ensures var e := es[|es| - 1];
            Recoverable(d, es) == Recoverable(d, es[..|es| - 1])
              + if Below(e.start, d.frontier) && At(d, e.width, e.start).Some? then [e] else []
  {
  }

  lemma NothingRecoverable(d: Db)
    ensures Recoverable(d, []) == []
  {
  }

  /** Below the frontier a fill folds into a bucket that is there everything due to it, and into one that is not, nothing. */
  lemma {:induction false} RecoveredFolds(d: Db, start: Db, es: seq<Entry>, w: nat, s: nat)
    requires Below(s, d.frontier) && At(start, w, s) == At(d, w, s)
    ensures At(FoldedIn(start, Recoverable(d, es)), w, s)
         == if At(d, w, s).Some? then At(FoldedIn(start, es), w, s) else None
    decreases |es|
  {
    hide FoldedIn, Onto, Recoverable, At, Below;
    if es == [] {
      NothingRecoverable(d);
      NoFold(start);
    } else {
      var front, e := es[..|es| - 1], es[|es| - 1];
      var r := Recoverable(d, front);
      RecoveredFolds(d, start, front, w, s);
      RecoverableLast(d, es);
      FoldedMore(start, r, e, w, s);
      FoldedMore(start, front, e, w, s);
      assert front + [e] == es && r + [] == r;
    }
  }

  // ----- one commit -----

  /** A fill's commit, window by window. Below the boundary: the blocks already folded there, then exactly those of the batch
      at or above the watermark. Past the prune frontier: the same when a bucket is there, nothing when none is. */
  lemma FillFolds(d: Db, boundary: nat, rows: seq<Block>, tail: Option<Block>, folded: u64, sets: Sets, w: Width, s: nat,
                  was: seq<Block>)
    requires OnTheHour(boundary) && Stored(w) && s % w == 0
    requires s < boundary || Below(s, d.frontier)
    requires Holds(d, w, s, was)
    ensures Holds(Filled(d, boundary, rows, tail, folded, sets), w, s,
                  was + if s < boundary || was != [] then Due(rows, s, s + w, folded) else [])
  {
    hide RebuildAll, FoldedIn, AllEntries, Upserted, Recoverable, Due, Window, HoldsBucket;
    var rowBacked := RowBacked(rows, tail, boundary);
    var additive := Filter(rows, (x: Block) => x.ts < boundary && x.number >= folded);
    var foldable := Filter(rows, (x: Block) => x.ts >= boundary && x.number >= folded);
    var upserted := d.(rows := Upserted(d.rows, rowBacked + Kept(tail, boundary)));
    var d1 := RebuildAll(upserted, rowBacked, sets);
    RebuildSpares(upserted, rowBacked, sets, boundary, w, s);
    RebuildAllEffect(upserted, rowBacked, sets, w, s);
    var d2 := FoldedIn(d1, AllEntries(additive, sets));
    FoldsJoin(d1, AllEntries(additive, sets), Recoverable(d1, AllEntries(foldable, sets)));
    BelowIsWhole(boundary, w, s);
    if s < boundary {
      FilterIsDue(rows, (x: Block) => x.ts < boundary && x.number >= folded, s, w, folded);
      AllFolds(d1, additive, sets, w, s, was);
      AllEntriesFrom(foldable, sets, boundary);
      RecoverableAmong(d1, AllEntries(foldable, sets));
      FoldsElsewhere(d2, Recoverable(d1, AllEntries(foldable, sets)), w, s);
    } else {
      AllEntriesBelow(additive, sets, boundary);
      FoldsElsewhere(d1, AllEntries(additive, sets), w, s);
      RecoveredFolds(d1, d2, AllEntries(foldable, sets), w, s);
      FilterIsDue(rows, (x: Block) => x.ts >= boundary && x.number >= folded, s, w, folded);
      AllFolds(d2, foldable, sets, w, s, was);
      HoldsNone(At(d, w, s), was);
      assert was + [] == was;
    }
  }

  lemma HoldsNone(b: Option<Bucket>, was: seq<Block>)
    requires HoldsBucket(b, was)
    ensures b.None? <==> was == []
  {
  }

  /** The backfill's batch folds everything below the boundary and, unlike a fill, nothing past the frontier. */
  lemma BackfillFolds(d: Db, boundary: nat, rows: seq<Block>, sets: Sets, w: Width, s: nat, was: seq<Block>)
    requires OnTheHour(boundary) && Stored(w) && s % w == 0
    requires s < boundary || Below(s, d.frontier)
    requires Holds(d, w, s, was)
    ensures Holds(Backfilled(d, boundary, rows, sets), w, s, was + if s < boundary then Due(rows, s, s + w, 0) else [])
  {
    hide RebuildAll, FoldedIn, AllEntries, Upserted, Due, Window, HoldsBucket;
    var rowBacked := Filter(rows, (x: Block) => x.ts >= boundary);
    var additive := Filter(rows, (x: Block) => x.ts < boundary);
    var upserted := d.(rows := Upserted(d.rows, rowBacked));
    var d1 := RebuildAll(upserted, rowBacked, sets);
    RebuildSpares(upserted, rowBacked, sets, boundary, w, s);
    BelowIsWhole(boundary, w, s);
    if s < boundary {
      FilterIsDue(rows, (x: Block) => x.ts < boundary, s, w, 0);
      AllFolds(d1, additive, sets, w, s, was);
    } else {
      AllEntriesBelow(additive, sets, boundary);
      FoldsElsewhere(d1, AllEntries(additive, sets), w, s);
      assert was + [] == was;
    }
  }

  /** The same in terms of the stored bucket: it becomes its merge with the builder's over the due blocks alone, or that
      alone where there was none. */
  lemma FoldIsMerge(d: Db, e: Db, w: nat, s: nat, was: seq<Block>, due: seq<Block>)
    requires Holds(d, w, s, was) && Holds(e, w, s, was + due)
    ensures due == [] ==> (At(e, w, s).Some? <==> At(d, w, s).Some?)
    ensures due != [] ==> At(e, w, s).Some? && Aside(At(e, w, s).value) == Aside(Onto(At(d, w, s), Plain(due)))
  {
    hide Plain, Merge, Aside, At;
    if due != [] && was != [] {
      ConcatIsMerge(was, due);
      PlainAside(due);
      PlainAside(was + due);
      AsideMerge(At(d, w, s).value, Plain(due));
      AsideMerge(Plain(was), Plain(due));
      PlainAside(was);
    } else if due != [] {
      assert was + due == due;
      PlainAside(due);
    }
  }

  // ----- the other transactions -----

  lemma DiscardSpares(d: Db, v: nat, starts: seq<nat>, w: nat, s: nat)
    ensures At(Discarded(d, v, starts), w, s) == if v == w && s in starts && Below(s, d.frontier) then None else At(d, w, s)
  {
  }

  lemma DiscardAllSpares(d: Db, rows: seq<Block>, w: Width, s: nat)
    requires Stored(w)
    ensures At(DiscardAll(d, rows), w, s) == if s in StartsOf(rows, w) && Below(s, d.frontier) then None else At(d, w, s)
  {
    hide Discarded, StartsOf, At;
    var d1 := Discarded(d, MINUTE, StartsOf(rows, MINUTE));
    var d2 := Discarded(d1, QUARTER, StartsOf(rows, QUARTER));
    DiscardKeepsFrontier(d, MINUTE, StartsOf(rows, MINUTE));
    DiscardKeepsFrontier(d1, QUARTER, StartsOf(rows, QUARTER));
    DiscardSpares(d, MINUTE, StartsOf(rows, MINUTE), w, s);
    DiscardSpares(d1, QUARTER, StartsOf(rows, QUARTER), w, s);
    DiscardSpares(d2, HOUR, StartsOf(rows, HOUR), w, s);
  }

  lemma DiscardKeepsFrontier(d: Db, v: nat, starts: seq<nat>)
    ensures Discarded(d, v, starts).frontier == d.frontier
  {
  }

  lemma {:induction false} SortedComesFrom(rows: map<u64, Block>, i: nat)
    requires i < |rows|
    ensures exists n :: n in rows && Sorted(rows)[i] == rows[n]
    decreases |rows|
  {
    var m := Greatest(rows.Keys);
    SortedStep(rows, m);
    if i < |rows - {m}| {
      SortedComesFrom(rows - {m}, i);
      var n :| n in rows - {m} && Sorted(rows - {m})[i] == (rows - {m})[n];
      assert n in rows && rows[n] == (rows - {m})[n];
    }
  }

  lemma RemovedIsStored(d: Db, ancestor: u64, i: nat)
    requires i < |RowsAfter(d, ancestor)|
    ensures exists n :: n in d.rows && n > ancestor && RowsAfter(d, ancestor)[i] == d.rows[n]
  {
    hide Sorted;
    SortedComesFrom(map n | n in d.rows && n > ancestor :: d.rows[n], i);
  }

  /** A row the rewind removes lies in the window. */
  ghost predicate Loses(d: Db, ancestor: u64, w: nat, s: nat) {
    exists n :: n in d.rows && n > ancestor && s <= d.rows[n].ts < s + w
  }

  lemma LosesExactly(d: Db, ancestor: u64, w: Width, s: nat)
    requires s % w == 0
    ensures s in StartsOf(RowsAfter(d, ancestor), w) <==> Loses(d, ancestor, w, s)
  {
    hide Start, StartsOf, RowsAfter;
    var removed := RowsAfter(d, ancestor);
    if s in StartsOf(removed, w) {
      StartOfSome(removed, w, s);
      var i :| 0 <= i < |removed| && Start(removed[i].ts, w) == s;
      RemovedIsStored(d, ancestor, i);
      StartSame(removed[i].ts, s, w);
    }
    if s !in StartsOf(removed, w) && Loses(d, ancestor, w, s) {
      LosesNone(d, ancestor, w, s);
    }
  }

  lemma LosesNone(d: Db, ancestor: u64, w: Width, s: nat)
    requires s % w == 0 && s !in StartsOf(RowsAfter(d, ancestor), w)
    ensures !Loses(d, ancestor, w, s)
  {
    RewindReaches(d, ancestor, w, s);
    forall n | n in d.rows && n > ancestor ensures !(s <= d.rows[n].ts < s + w) {
      assert n !in InWindow(DeletedAfter(d, ancestor).rows, s, w);
    }
  }

  /** Every row a rewind removes lies at or above the boundary. */
  ghost predicate RemovesLive(d: Db, boundary: nat, ancestor: u64) {
    forall n :: n in d.rows && n > ancestor ==> d.rows[n].ts >= boundary
  }

  lemma RemovedNoneBelow(d: Db, boundary: nat, ancestor: u64)
    requires RemovesLive(d, boundary, ancestor)
    ensures NoneBelow(RowsAfter(d, ancestor), boundary)
  {
    hide RowsAfter;
    var removed := RowsAfter(d, ancestor);
    forall i | 0 <= i < |removed| ensures removed[i].ts >= boundary { RemovedIsStored(d, ancestor, i); }
  }

  // ----- every transaction -----

  /** Live commits and repairs carry rows at or above the boundary only; a rewind that leaves the additive buckets removes
      only such rows. */
  ghost predicate Allowed(d: Db, boundary: nat, step: Step) {
    match step
    case Commit(rows, _) => NoneBelow(rows, boundary)
    case Repair(repairable, _, _) => NoneBelow(repairable, boundary)
    case Rewind(ancestor, cleared, _) => cleared || RemovesLive(d, boundary, ancestor)
    case _ => true
  }

  /** The blocks of a window below the boundary or past the prune frontier, after a transaction. */
  ghost function Held(d: Db, boundary: nat, step: Step, w: nat, s: nat, was: seq<Block>): seq<Block> {
    match step
    case Fill(rows, _, folded, _) => was + if s < boundary || was != [] then Due(rows, s, s + w, folded) else []
    case Backfill(rows, _) => was + if s < boundary then Due(rows, s, s + w, 0) else []
    case Rewind(ancestor, cleared, _) => if (if s < boundary then cleared else Loses(d, ancestor, w, s)) then [] else was
    case DropAdditive => if s < boundary then [] else was
    case _ => was
  }

  lemma RewindHolds(d: Db, boundary: nat, ancestor: u64, cleared: bool, sets: Sets, w: Width, s: nat)
    requires OnTheHour(boundary) && Stored(w) && s % w == 0 && (s < boundary || Below(s, d.frontier))
    requires cleared || RemovesLive(d, boundary, ancestor)
    ensures At(Rewound(d, boundary, ancestor, cleared, sets), w, s)
         == if (if s < boundary then cleared else Loses(d, ancestor, w, s)) then None else At(d, w, s)
  {
    hide RebuildAll, DiscardAll, StartsOf, RowsAfter, Loses;
    var removed := RowsAfter(d, ancestor);
    var kept := DeletedAfter(d, ancestor);
    var d1 := RebuildAll(kept, removed, sets);
    RebuildAllEffect(kept, removed, sets, w, s);
    DiscardAllSpares(d1, removed, w, s);
    if s >= boundary {
      LosesExactly(d, ancestor, w, s);
    } else if !cleared {
      RemovedNoneBelow(d, boundary, ancestor);
      RebuildSpares(kept, removed, sets, boundary, w, s);
      NoStartBelow(removed, boundary, w, s);
    }
  }

  lemma NoStartBelow(rows: seq<Block>, boundary: nat, w: Width, s: nat)
    requires OnTheHour(boundary) && Stored(w) && NoneBelow(rows, boundary) && s < boundary
    ensures s !in StartsOf(rows, w)
  {
    hide Start, StartsOf;
    if s in StartsOf(rows, w) {
      StartOfSome(rows, w, s);
      var i :| 0 <= i < |rows| && Start(rows[i].ts, w) == s;
      StartNotBelow(rows[i].ts, boundary, w);
    }
  }

  /** One transaction, for every window that is below the boundary or past the prune frontier. */
  lemma StepHolds(d: Db, boundary: nat, step: Step, w: Width, s: nat, was: seq<Block>)
    requires OnTheHour(boundary) && Stored(w) && s % w == 0 && (s < boundary || Below(s, d.frontier))
    requires Allowed(d, boundary, step) && Holds(d, w, s, was)
    ensures Holds(Apply(d, boundary, step), w, s, Held(d, boundary, step, w, s, was))
  {
    hide RebuildAll, HoldsBucket, Filled, Backfilled, Rewound, Due, Upserted, OnTheHour, Below, Loses, RemovesLive, NoneBelow;
    hide PosterSet;
    match step
    case Commit(rows, sets) =>
      RebuildSpares(d.(rows := Upserted(d.rows, rows)), rows, sets, boundary, w, s);
    case Fill(rows, tail, folded, sets) => FillFolds(d, boundary, rows, tail, folded, sets, w, s, was);
    case Backfill(rows, sets) => BackfillFolds(d, boundary, rows, sets, w, s, was);
    case Repair(repairable, gas, sets) =>
      PosterSetBuckets(d, gas);
      RebuildSpares(PosterSet(d, gas), repairable, sets, boundary, w, s);
    case Prune(before) =>
    case SeedFrontier(cutoff) =>
    case Rewind(ancestor, cleared, sets) =>
      RewindHolds(d, boundary, ancestor, cleared, sets, w, s);
      NoneHolds();
    case DropAdditive =>
      NoneHolds();
  }

  lemma PosterSetBuckets(d: Db, gas: map<u64, u64>)
    ensures PosterSet(d, gas).buckets == d.buckets && PosterSet(d, gas).frontier == d.frontier
  {
  }

  lemma NoneHolds()
    ensures HoldsBucket(None, [])
  {
  }

  // ----- whole runs -----

  ghost function Ran(d: Db, boundary: nat, steps: seq<Step>): Db
    decreases |steps|
  {
    if steps == [] then d else Ran(Apply(d, boundary, steps[0]), boundary, steps[1..])
  }

  ghost predicate AllAllowed(d: Db, boundary: nat, steps: seq<Step>)
    decreases |steps|
  {
    steps == [] || (Allowed(d, boundary, steps[0]) && AllAllowed(Apply(d, boundary, steps[0]), boundary, steps[1..]))
  }

  ghost function HeldOver(d: Db, boundary: nat, steps: seq<Step>, w: nat, s: nat, was: seq<Block>): seq<Block>
    decreases |steps|
  {
    if steps == [] then was
    else HeldOver(Apply(d, boundary, steps[0]), boundary, steps[1..], w, s, Held(d, boundary, steps[0], w, s, was))
  }

  lemma FrontierOnlyRises(d: Db, boundary: nat, step: Step, s: nat)
    requires Below(s, d.frontier)
    ensures Below(s, Apply(d, boundary, step).frontier)
  {
    hide RebuildAll, FoldedIn, AllEntries, Upserted, Recoverable, RowBacked, Filter, DiscardAll, RowsAfter, InWindow;
    match step
    case Commit(rows, sets) => RebuildAllEffect(d.(rows := Upserted(d.rows, rows)), rows, sets, HOUR, 0);
    case Fill(rows, tail, folded, sets) =>
      var rowBacked := RowBacked(rows, tail, boundary);
      var d0 := d.(rows := Upserted(d.rows, rowBacked + Kept(tail, boundary)));
      RebuildAllEffect(d0, rowBacked, sets, HOUR, 0);
      var d1 := RebuildAll(d0, rowBacked, sets);
      var foldable := Filter(rows, (x: Block) => x.ts >= boundary && x.number >= folded);
      var additive := Filter(rows, (x: Block) => x.ts < boundary && x.number >= folded);
      FoldedInFrontier(d1, AllEntries(additive, sets) + Recoverable(d1, AllEntries(foldable, sets)));
    case Backfill(rows, sets) =>
      var rowBacked := Filter(rows, (x: Block) => x.ts >= boundary);
      var d0 := d.(rows := Upserted(d.rows, rowBacked));
      RebuildAllEffect(d0, rowBacked, sets, HOUR, 0);
      FoldedInFrontier(RebuildAll(d0, rowBacked, sets), AllEntries(Filter(rows, (x: Block) => x.ts < boundary), sets));
    case Repair(repairable, gas, sets) => RebuildAllEffect(PosterSet(d, gas), repairable, sets, HOUR, 0);
    case Rewind(ancestor, cleared, sets) =>
      var d0 := DeletedAfter(d, ancestor);
      RebuildAllEffect(d0, RowsAfter(d, ancestor), sets, HOUR, 0);
      DiscardAllFrontier(RebuildAll(d0, RowsAfter(d, ancestor), sets), RowsAfter(d, ancestor));
    case _ =>
  }

  lemma DiscardAllFrontier(d: Db, rows: seq<Block>)
    ensures DiscardAll(d, rows).frontier == d.frontier
  {
  }

  /** Any run of transactions, from any state whose window holds known blocks: it ends holding those, as the run's
      transactions add to them and delete them. */
  lemma {:induction false} RunHolds(d: Db, boundary: nat, steps: seq<Step>, w: Width, s: nat, was: seq<Block>)
    requires OnTheHour(boundary) && Stored(w) && s % w == 0 && (s < boundary || Below(s, d.frontier))
    requires AllAllowed(d, boundary, steps) && Holds(d, w, s, was)
    ensures Holds(Ran(d, boundary, steps), w, s, HeldOver(d, boundary, steps, w, s, was))
    decreases |steps|
  {
    if steps != [] {
      hide Apply, Held, Holds, Below, OnTheHour, Allowed;
      StepHolds(d, boundary, steps[0], w, s, was);
      if s >= boundary { FrontierOnlyRises(d, boundary, steps[0], s); }
      RunHolds(Apply(d, boundary, steps[0]), boundary, steps[1..], w, s, Held(d, boundary, steps[0], w, s, was));
    }
  }

  /** Below the boundary, from an empty store: a window has a bucket if and only if a block was folded into it since the last
      deletion, it counts those blocks, and every column is theirs. */
  lemma BucketsHoldWhatWasFolded(boundary: nat, steps: seq<Step>, w: Width, s: nat)
    requires OnTheHour(boundary) && Stored(w) && s % w == 0 && s < boundary
    requires AllAllowed(EMPTY_DB, boundary, steps)
    ensures var b, xs := At(Ran(EMPTY_DB, boundary, steps), w, s), HeldOver(EMPTY_DB, boundary, steps, w, s, []);
            && (b.Some? <==> xs != [])
            && (b.Some? ==> b.value.blocks == |xs| && Means(b.value, xs) && Aside(b.value) == Plain(xs))
  {
    hide Ran, HeldOver, AllAllowed, Plain, Aside, Means;
    RunHolds(EMPTY_DB, boundary, steps, w, s, []);
    var b, xs := At(Ran(EMPTY_DB, boundary, steps), w, s), HeldOver(EMPTY_DB, boundary, steps, w, s, []);
    if b.Some? { HeldMeans(b.value, xs); }
  }

  lemma HeldMeans(b: Bucket, xs: seq<Block>)
    requires xs != [] && Aside(b) == Plain(xs)
    ensures Means(b, xs) && b.blocks == |xs|
  {
    hide Means;
    BuiltMeans(xs, NO_SETS);
    PlainAside(xs);
    MeansAside(Plain(xs), b, xs);
    CountMeans(b, xs);
  }

  lemma CountMeans(b: Bucket, xs: seq<Block>)
    requires xs != [] && Means(b, xs)
    ensures b.blocks == |xs|
  {
  }
}
