/** The collector's chain transactions over the store: live commits and rewinds of
    internal/collector/tick.go, gap fills of fill.go, backfill batches of backfill.go, poster-gas repairs
    of postergas.go and prunes of slow.go. Each is one atomic step. Windows at or above both the live
    boundary and the prune frontier are rebuilt from rows; everything older is only added to or removed. */
module Chain {
  import opened Words
  import opened Buckets
  import opened BucketLaws
  import opened Windows
  import opened Store

  // ----- which windows a batch touches -----

  /** BucketStarts: the distinct window starts of rows. */
  function StartsOf(rows: seq<Block>, w: Width): (r: seq<nat>)
    ensures forall i :: 0 <= i < |rows| ==> Start(rows[i].ts, w) in r
    decreases |rows|
  {
    if rows == [] then []
    else
      var r := StartsOf(rows[..|rows| - 1], w);
      var s := Start(rows[|rows| - 1].ts, w);
      if s in r then r else r + [s]
  }

  function RebuildAll(d: Db, rows: seq<Block>, sets: Sets): Db {
    var d1 := Rebuilt(d, MINUTE, StartsOf(rows, MINUTE), sets);
    var d2 := Rebuilt(d1, QUARTER, StartsOf(rows, QUARTER), sets);
    Rebuilt(d2, HOUR, StartsOf(rows, HOUR), sets)
  }

  function DiscardAll(d: Db, rows: seq<Block>): Db {
    var d1 := Discarded(d, MINUTE, StartsOf(rows, MINUTE));
    var d2 := Discarded(d1, QUARTER, StartsOf(rows, QUARTER));
    Discarded(d2, HOUR, StartsOf(rows, HOUR))
  }

  function AllEntries(rows: seq<Block>, sets: Sets): seq<Entry> {
    Entries(Groups(rows, MINUTE), MINUTE, sets) + Entries(Groups(rows, QUARTER), QUARTER, sets)
    + Entries(Groups(rows, HOUR), HOUR, sets)
  }

  type Test = Block -> bool

  function Filter(rows: seq<Block>, p: Test): (r: seq<Block>)
    ensures forall i :: 0 <= i < |r| ==> p(r[i]) && r[i] in rows
    ensures forall i :: 0 <= i < |rows| && p(rows[i]) ==> rows[i] in r
    decreases |rows|
  {
    if rows == [] then []
    else Filter(rows[..|rows| - 1], p) + if p(rows[|rows| - 1]) then [rows[|rows| - 1]] else []
  }

  // ----- the transactions -----

  /** persist: rows in, their windows rebuilt. A rebuild of no rows does nothing. */
  function Committed(d: Db, rows: seq<Block>, sets: Sets): Db {
    RebuildAll(d.(rows := Upserted(d.rows, rows)), rows, sets)
  }

  /** The partial buckets a fill may add to windows the store declined: only into a bucket still there. */
  function Recoverable(d: Db, es: seq<Entry>): (r: seq<Entry>)
    ensures forall i :: 0 <= i < |r| ==> Below(r[i].start, d.frontier)
    decreases |es|
  {
    if es == [] then []
    else
      var e := es[|es| - 1];
      Recoverable(d, es[..|es| - 1]) +
      if Below(e.start, d.frontier) && Key(e.width, e.start) in d.buckets then [e] else []
  }

  function RowBacked(rows: seq<Block>, tail: Option<Block>, boundary: nat): seq<Block> {
    Filter(rows, (x: Block) => x.ts >= boundary) + if tail.Some? && tail.value.ts >= boundary then [tail.value] else []
  }

  function Kept(tail: Option<Block>, boundary: nat): seq<Block> {
    if tail.Some? && tail.value.ts < boundary then [tail.value] else []
  }

  /** commitFill: `folded` is the hole's fold watermark. */
  function Filled(d: Db, boundary: nat, rows: seq<Block>, tail: Option<Block>, folded: u64, sets: Sets): Db {
    var rowBacked := RowBacked(rows, tail, boundary);
    var additive := Filter(rows, (x: Block) => x.ts < boundary && x.number >= folded);
    var foldable := Filter(rows, (x: Block) => x.ts >= boundary && x.number >= folded);
    var d1 := RebuildAll(d.(rows := Upserted(d.rows, rowBacked + Kept(tail, boundary))), rowBacked, sets);
    FoldedIn(d1, AllEntries(additive, sets) + Recoverable(d1, AllEntries(foldable, sets)))
  }

  /** The commit of one backfill batch. */
  function Backfilled(d: Db, boundary: nat, rows: seq<Block>, sets: Sets): Db {
    var rowBacked := Filter(rows, (x: Block) => x.ts >= boundary);
    var additive := Filter(rows, (x: Block) => x.ts < boundary);
    FoldedIn(RebuildAll(d.(rows := Upserted(d.rows, rowBacked)), rowBacked, sets), AllEntries(additive, sets))
  }

  function Repaired(d: Db, repairable: seq<Block>, gas: map<u64, u64>, sets: Sets): Db {
    RebuildAll(PosterSet(d, gas), repairable, sets)
  }

  function PrunedAt(d: Db, before: nat): Db {
    Pruned(d, before).(frontier := Raised(d.frontier, before))
  }

  function Rewound(d: Db, boundary: nat, ancestor: u64, cleared: bool, sets: Sets): Db {
    var removed := RowsAfter(d, ancestor);
    var d1 := DiscardAll(RebuildAll(DeletedAfter(d, ancestor), removed, sets), removed);
    if cleared then DeletedBefore(d1, boundary) else d1
  }

  datatype Step =
    | Commit(rows: seq<Block>, sets: Sets)
    | Fill(rows: seq<Block>, tail: Option<Block>, folded: u64, sets: Sets)
    | Backfill(rows: seq<Block>, sets: Sets)
    | Repair(repairable: seq<Block>, gas: map<u64, u64>, sets: Sets)
    | Prune(before: nat)
    | SeedFrontier(cutoff: nat)
    | Rewind(ancestor: u64, cleared: bool, sets: Sets)
    | DropAdditive

  function Apply(d: Db, boundary: nat, step: Step): Db {
    match step
    case Commit(rows, sets) => Committed(d, rows, sets)
    case Fill(rows, tail, folded, sets) => Filled(d, boundary, rows, tail, folded, sets)
    case Backfill(rows, sets) => Backfilled(d, boundary, rows, sets)
    case Repair(repairable, gas, sets) => Repaired(d, repairable, gas, sets)
    case Prune(before) => PrunedAt(d, before)
    case SeedFrontier(cutoff) => d.(frontier := Raised(d.frontier, cutoff))
    case Rewind(ancestor, cleared, sets) => Rewound(d, boundary, ancestor, cleared, sets)
    case DropAdditive => DeletedBefore(d, boundary)
  }

  /** Rows written over stored ones are the same blocks: same number, same timestamp. Between rewinds
      every writer reads one fork, and the generation check discards work from another. */
  ghost predicate SameFork(rows: map<u64, Block>, batch: seq<Block>) {
    && (forall i :: 0 <= i < |batch| && batch[i].number in rows ==> rows[batch[i].number].ts == batch[i].ts)
    && (forall i, j :: 0 <= i < j < |batch| && batch[i].number == batch[j].number ==> batch[i].ts == batch[j].ts)
  }

  ghost predicate Covered(gas: map<u64, u64>, repairable: seq<Block>) {
    forall n :: n in gas ==> exists i :: 0 <= i < |repairable| && repairable[i].number == n
  }

  ghost predicate Enabled(d: Db, boundary: nat, step: Step) {
    match step
    case Commit(rows, _) => SameFork(d.rows, rows)
    case Fill(rows, tail, _, _) => SameFork(d.rows, RowBacked(rows, tail, boundary) + Kept(tail, boundary))
    case Backfill(rows, _) => SameFork(d.rows, Filter(rows, (x: Block) => x.ts >= boundary))
    case Repair(repairable, gas, _) => SameFork(d.rows, repairable) && Covered(gas, repairable)
    case _ => true
  }

  // ----- the invariant -----

  predicate Stored(w: nat) { w == MINUTE || w == QUARTER || w == HOUR }

  /** The bucket of a window is the builder's over its stored rows; none when it has none. */
  ghost predicate Right(d: Db, w: nat, s: nat) {
    var rows := InWindow(d.rows, s, w);
    if rows == map[] then Key(w, s) !in d.buckets
    else Key(w, s) in d.buckets && Aside(d.buckets[Key(w, s)]) == Plain(Sorted(rows))
  }

  ghost predicate InScope(d: Db, boundary: nat, w: nat, s: nat) {
    Stored(w) && s % w == 0 && s >= boundary && !Below(s, d.frontier)
  }

  ghost predicate Consistent(d: Db, boundary: nat) {
    forall w: nat, s: nat :: InScope(d, boundary, w, s) ==> Right(d, w, s)
  }

  /** Two states that agree at one window. */
  ghost predicate AgreeAt(d: Db, e: Db, w: nat, s: nat) {
    && InWindow(d.rows, s, w) == InWindow(e.rows, s, w)
    && (Key(w, s) in d.buckets <==> Key(w, s) in e.buckets)
    && (Key(w, s) in d.buckets ==> d.buckets[Key(w, s)] == e.buckets[Key(w, s)])
  }

  lemma RightCarries(d: Db, e: Db, w: nat, s: nat)
    requires AgreeAt(d, e, w, s) && Right(d, w, s)
    ensures Right(e, w, s)
  {
  }

  // ----- rebuilding -----

  lemma RebuiltOneElsewhere(d: Db, w: Width, s: nat, sets: Sets, v: nat, t: nat)
    requires v != w || t != s || Below(s, d.frontier)
    ensures AgreeAt(d, RebuiltOne(d, w, s, sets), v, t)
  {
    hide Built, Sorted, InWindow;
    assert Below(s, d.frontier) || Key(v, t) != Key(w, s);
  }

  lemma RebuiltOneHere(d: Db, w: Width, s: nat, sets: Sets)
    requires !Below(s, d.frontier)
    ensures Right(RebuiltOne(d, w, s, sets), w, s)
  {
    hide Built, Plain, Aside, Sorted, InWindow;
    AsideBuilt(Sorted(InWindow(d.rows, s, w)), sets);
    SortedEmpty(InWindow(d.rows, s, w));
  }

  lemma RebuiltOneKeeps(d: Db, w: Width, s: nat, sets: Sets)
    ensures RebuiltOne(d, w, s, sets).rows == d.rows && RebuiltOne(d, w, s, sets).frontier == d.frontier
  {
    hide Built, Sorted, InWindow;
  }

  lemma SortedEmpty(rows: map<u64, Block>)
    ensures Sorted(rows) == [] <==> rows == map[]
  {
    assert |Sorted(rows)| == |rows|;
    if |rows| == 0 { assert rows.Keys == {}; }
  }

  lemma {:induction false} RebuiltEffect(d: Db, w: Width, starts: seq<nat>, sets: Sets, v: nat, t: nat)
    ensures var e := Rebuilt(d, w, starts, sets);
            && e.rows == d.rows && e.frontier == d.frontier
            && (v != w || t !in starts || Below(t, d.frontier) ==> AgreeAt(d, e, v, t))
            && (v == w && t in starts && !Below(t, d.frontier) ==> Right(e, v, t))
    decreases |starts|
  {
    hide RebuiltOne, Right, AgreeAt;
    if starts == [] {
      AgreeSelf(d, v, t);
    } else {
      var n := |starts| - 1;
      var mid := Rebuilt(d, w, starts[..n], sets);
      var e := Rebuilt(d, w, starts, sets);
      RebuiltEffect(d, w, starts[..n], sets, v, t);
      RebuiltOneKeeps(mid, w, starts[n], sets);
      assert t in starts <==> t in starts[..n] || t == starts[n];
      if v == w && t == starts[n] && !Below(t, d.frontier) {
        RebuiltOneHere(mid, w, t, sets);
      } else {
        RebuiltOneElsewhere(mid, w, starts[n], sets, v, t);
        if v == w && t in starts && !Below(t, d.frontier) {
          RightCarries(mid, e, v, t);
        } else {
          AgreeTrans(d, mid, e, v, t);
        }
      }
    }
  }

  lemma AgreeSelf(d: Db, w: nat, s: nat)
    ensures AgreeAt(d, d, w, s)
  {
  }

  lemma AgreeTrans(d: Db, e: Db, f: Db, w: nat, s: nat)
    requires AgreeAt(d, e, w, s) && AgreeAt(e, f, w, s)
    ensures AgreeAt(d, f, w, s)
  {
  }

  /** The rebuild of every resolution makes the touched windows right and leaves the others alone. */
  lemma RebuildAllEffect(d: Db, rows: seq<Block>, sets: Sets, w: Width, s: nat)
    requires Stored(w)
    ensures var e := RebuildAll(d, rows, sets);
            && e.rows == d.rows && e.frontier == d.frontier
            && (s !in StartsOf(rows, w) || Below(s, d.frontier) ==> AgreeAt(d, e, w, s))
            && (s in StartsOf(rows, w) && !Below(s, d.frontier) ==> Right(e, w, s))
  {
    hide Rebuilt, Right, AgreeAt, StartsOf;
    var d1 := Rebuilt(d, MINUTE, StartsOf(rows, MINUTE), sets);
    var d2 := Rebuilt(d1, QUARTER, StartsOf(rows, QUARTER), sets);
    var d3 := Rebuilt(d2, HOUR, StartsOf(rows, HOUR), sets);
    RebuiltEffect(d, MINUTE, StartsOf(rows, MINUTE), sets, w, s);
    RebuiltEffect(d1, QUARTER, StartsOf(rows, QUARTER), sets, w, s);
    RebuiltEffect(d2, HOUR, StartsOf(rows, HOUR), sets, w, s);
    if s in StartsOf(rows, w) && !Below(s, d.frontier) {
      if w == MINUTE {
        RightCarries(d1, d2, w, s);
        RightCarries(d2, d3, w, s);
      } else if w == QUARTER {
        RightCarries(d2, d3, w, s);
      }
    } else {
      AgreeTrans(d, d1, d2, w, s);
      AgreeTrans(d, d2, d3, w, s);
    }
  }

  /** Rows changed, buckets not yet: rebuilding every window whose rows changed restores the invariant. */
  lemma RebuildRestores(d: Db, changed: Db, rows: seq<Block>, sets: Sets, boundary: nat)
    requires Consistent(d, boundary)
    requires changed.buckets == d.buckets && changed.frontier == d.frontier
    requires forall w: Width, s: nat :: Stored(w) && s % w == 0 && s !in StartsOf(rows, w) ==>
               InWindow(changed.rows, s, w) == InWindow(d.rows, s, w)
    ensures Consistent(RebuildAll(changed, rows, sets), boundary)
    ensures RebuildAll(changed, rows, sets).frontier == d.frontier
  {
    hide RebuildAll, Right, StartsOf;
    var e := RebuildAll(changed, rows, sets);
    RebuildAllEffect(changed, rows, sets, HOUR, 0);
    forall w, s | InScope(e, boundary, w, s) ensures Right(e, w, s) {
      RebuildAllEffect(changed, rows, sets, w, s);
      if s !in StartsOf(rows, w) {
        assert InScope(d, boundary, w, s);
        assert AgreeAt(d, changed, w, s);
        RightCarries(d, changed, w, s);
        RightCarries(changed, e, w, s);
      }
    }
  }

  // ----- which windows each change of rows can reach -----

  lemma OutsideWindow(ts: nat, w: Width, s: nat)
    requires s % w == 0 && Start(ts, w) != s
    ensures !(s <= ts < s + w)
  {
    hide Start;
    StartSame(ts, s, w);
  }

  lemma {:induction false} UpsertedHas(rows: map<u64, Block>, blocks: seq<Block>, n: u64)
    ensures n in Upserted(rows, blocks) <==> n in rows || exists i :: 0 <= i < |blocks| && blocks[i].number == n
    ensures n in Upserted(rows, blocks) ==>
              || (n in rows && Upserted(rows, blocks)[n] == rows[n])
              || (exists i :: 0 <= i < |blocks| && blocks[i].number == n && Upserted(rows, blocks)[n] == blocks[i])
    ensures (forall i :: 0 <= i < |blocks| ==> blocks[i].number != n) && n in rows ==> Upserted(rows, blocks)[n] == rows[n]
    decreases |blocks|
  {
    if blocks != [] {
      var k := |blocks| - 1;
      UpsertedHas(rows, blocks[..k], n);
      if blocks[k].number == n {
        assert Upserted(rows, blocks)[n] == blocks[k];
      } else if n in Upserted(rows, blocks[..k]) {
        assert Upserted(rows, blocks)[n] == Upserted(rows, blocks[..k])[n];
        if i :| 0 <= i < k && blocks[..k][i].number == n && Upserted(rows, blocks[..k])[n] == blocks[..k][i] {
          assert blocks[i].number == n && Upserted(rows, blocks)[n] == blocks[i];
        }
      }
    }
  }

  lemma UpsertReaches(rows: map<u64, Block>, blocks: seq<Block>, w: Width, s: nat)
    requires SameFork(rows, blocks) && s % w == 0
    requires forall i :: 0 <= i < |blocks| ==> Start(blocks[i].ts, w) != s
    ensures InWindow(Upserted(rows, blocks), s, w) == InWindow(rows, s, w)
  {
    hide Start;
    var after := Upserted(rows, blocks);
    forall i | 0 <= i < |blocks| ensures !(s <= blocks[i].ts < s + w) {
      OutsideWindow(blocks[i].ts, w, s);
    }
    forall n: u64 ensures n in InWindow(after, s, w) <==> n in InWindow(rows, s, w) {
      UpsertedHas(rows, blocks, n);
    }
    forall n: u64 | n in InWindow(rows, s, w) ensures after[n] == rows[n] {
      UpsertedHas(rows, blocks, n);
    }
  }

  lemma {:induction false} StartAmong(rows: seq<Block>, w: Width, s: nat)
    requires s !in StartsOf(rows, w)
    ensures forall i :: 0 <= i < |rows| ==> Start(rows[i].ts, w) != s
  {
  }

  lemma CommitKeeps(d: Db, boundary: nat, rows: seq<Block>, sets: Sets)
    requires Consistent(d, boundary) && SameFork(d.rows, rows)
    ensures Consistent(Committed(d, rows, sets), boundary) && Committed(d, rows, sets).frontier == d.frontier
  {
    CommitPlusKeeps(d, boundary, rows, [], sets);
    assert rows + [] == rows;
  }

  /** Rows outside every window in scope may come along unrebuilt. */
  lemma CommitPlusKeeps(d: Db, boundary: nat, rows: seq<Block>, stale: seq<Block>, sets: Sets)
    requires Consistent(d, boundary) && SameFork(d.rows, rows + stale)
    requires forall i :: 0 <= i < |stale| ==> stale[i].ts < boundary
    ensures var e := RebuildAll(d.(rows := Upserted(d.rows, rows + stale)), rows, sets);
            Consistent(e, boundary) && e.frontier == d.frontier
  {
    hide RebuildAll, Right, StartsOf, Upserted, SameFork, Start;
    var changed := d.(rows := Upserted(d.rows, rows + stale));
    var e := RebuildAll(changed, rows, sets);
    RebuildAllEffect(changed, rows, sets, HOUR, 0);
    forall w, s | InScope(e, boundary, w, s) ensures Right(e, w, s) {
      RebuildAllEffect(changed, rows, sets, w, s);
      if s !in StartsOf(rows, w) {
        StartAmong(rows, w, s);
        forall i | 0 <= i < |rows + stale| ensures Start((rows + stale)[i].ts, w) != s {
          if i >= |rows| {
            assert (rows + stale)[i] == stale[i - |rows|];
            StartBelow(stale[i - |rows|].ts, w);
          }
        }
        UpsertReaches(d.rows, rows + stale, w, s);
        assert AgreeAt(d, changed, w, s);
        RightCarries(d, changed, w, s);
        RightCarries(changed, e, w, s);
      }
    }
  }

  lemma StartBelow(ts: nat, w: Width)
    ensures Start(ts, w) <= ts
  {
  }

  // ----- additive folds stay below the scope -----

  lemma {:induction false} FoldedInElsewhere(d: Db, es: seq<Entry>, w: nat, s: nat)
    requires forall i :: 0 <= i < |es| ==> es[i].start != s
    ensures AgreeAt(d, FoldedIn(d, es), w, s)
    ensures FoldedIn(d, es).rows == d.rows && FoldedIn(d, es).frontier == d.frontier
    decreases |es|
  {
    hide Merge, InWindow;
    if es != [] { FoldedInElsewhere(d, es[..|es| - 1], w, s); }
  }

  lemma FoldsKeep(d: Db, es: seq<Entry>, boundary: nat)
    requires Consistent(d, boundary)
    requires forall i :: 0 <= i < |es| ==> es[i].start < boundary || Below(es[i].start, d.frontier)
    ensures Consistent(FoldedIn(d, es), boundary) && FoldedIn(d, es).frontier == d.frontier
  {
    hide FoldedIn, Right;
    FoldedInFrontier(d, es);
    forall w, s | InScope(FoldedIn(d, es), boundary, w, s) ensures Right(FoldedIn(d, es), w, s) {
      FoldedInElsewhere(d, es, w, s);
      assert InScope(d, boundary, w, s);
      RightCarries(d, FoldedIn(d, es), w, s);
    }
  }

  lemma {:induction false} FoldedInFrontier(d: Db, es: seq<Entry>)
    ensures FoldedIn(d, es).frontier == d.frontier
    decreases |es|
  {
    hide Merge;
    if es != [] { FoldedInFrontier(d, es[..|es| - 1]); }
  }

  lemma {:induction false} GroupsStartWithRows(rows: seq<Block>, w: Width)
    ensures forall i :: 0 <= i < |Groups(rows, w)| ==> Groups(rows, w)[i][0] in rows
    decreases |rows|
  {
    hide Start;
    if rows != [] {
      GroupsStartWithRows(rows[..|rows| - 1], w);
      assert forall x :: x in rows[..|rows| - 1] ==> x in rows;
    }
  }

  lemma EntriesBelow(rows: seq<Block>, w: Width, sets: Sets, boundary: nat)
    requires forall x :: x in rows ==> x.ts < boundary
    ensures forall i :: 0 <= i < |Entries(Groups(rows, w), w, sets)| ==> Entries(Groups(rows, w), w, sets)[i].start < boundary
  {
    hide Groups, Built;
    GroupsStartWithRows(rows, w);
    forall i | 0 <= i < |Groups(rows, w)| ensures Start(Groups(rows, w)[i][0].ts, w) < boundary {
      StartBelow(Groups(rows, w)[i][0].ts, w);
    }
  }

  lemma AllEntriesBelow(rows: seq<Block>, sets: Sets, boundary: nat)
    requires forall x :: x in rows ==> x.ts < boundary
    ensures forall i :: 0 <= i < |AllEntries(rows, sets)| ==> AllEntries(rows, sets)[i].start < boundary
  {
    hide Groups, Entries;
    EntriesBelow(rows, MINUTE, sets, boundary);
    EntriesBelow(rows, QUARTER, sets, boundary);
    EntriesBelow(rows, HOUR, sets, boundary);
  }

  lemma FillKeeps(d: Db, boundary: nat, rows: seq<Block>, tail: Option<Block>, folded: u64, sets: Sets)
    requires Consistent(d, boundary) && SameFork(d.rows, RowBacked(rows, tail, boundary) + Kept(tail, boundary))
    ensures Consistent(Filled(d, boundary, rows, tail, folded, sets), boundary)
  {
    hide RebuildAll, FoldedIn, AllEntries, RowBacked, Consistent, SameFork, Recoverable, Upserted;
    var rowBacked := RowBacked(rows, tail, boundary);
    var additive := Filter(rows, (x: Block) => x.ts < boundary && x.number >= folded);
    var foldable := Filter(rows, (x: Block) => x.ts >= boundary && x.number >= folded);
    CommitPlusKeeps(d, boundary, rowBacked, Kept(tail, boundary), sets);
    var d1 := RebuildAll(d.(rows := Upserted(d.rows, rowBacked + Kept(tail, boundary))), rowBacked, sets);
    AllEntriesBelow(additive, sets, boundary);
    FoldsKeep(d1, AllEntries(additive, sets) + Recoverable(d1, AllEntries(foldable, sets)), boundary);
  }

  lemma BackfillKeeps(d: Db, boundary: nat, rows: seq<Block>, sets: Sets)
    requires Consistent(d, boundary) && SameFork(d.rows, Filter(rows, (x: Block) => x.ts >= boundary))
    ensures Consistent(Backfilled(d, boundary, rows, sets), boundary)
  {
    hide RebuildAll, FoldedIn, AllEntries, Consistent, SameFork, Upserted;
    var rowBacked := Filter(rows, (x: Block) => x.ts >= boundary);
    var additive := Filter(rows, (x: Block) => x.ts < boundary);
    CommitKeeps(d, boundary, rowBacked, sets);
    AllEntriesBelow(additive, sets, boundary);
    FoldsKeep(Committed(d, rowBacked, sets), AllEntries(additive, sets), boundary);
  }

  // ----- repairs, prunes and rewinds -----

  lemma RepairReaches(d: Db, repairable: seq<Block>, gas: map<u64, u64>, w: Width, s: nat)
    requires SameFork(d.rows, repairable) && Covered(gas, repairable) && s % w == 0
    requires forall i :: 0 <= i < |repairable| ==> Start(repairable[i].ts, w) != s
    ensures InWindow(PosterSet(d, gas).rows, s, w) == InWindow(d.rows, s, w)
  {
    hide Start, InWindow;
    forall n: u64 | n in d.rows && s <= d.rows[n].ts < s + w ensures n !in gas {
      if n in gas {
        var i :| 0 <= i < |repairable| && repairable[i].number == n;
        OutsideWindow(repairable[i].ts, w, s);
      }
    }
    hide SameFork, Covered;
    RepairElsewhere(d, gas, w, s);
  }

  lemma RepairElsewhere(d: Db, gas: map<u64, u64>, w: nat, s: nat)
    requires forall n: u64 :: n in d.rows && s <= d.rows[n].ts < s + w ==> n !in gas
    ensures InWindow(PosterSet(d, gas).rows, s, w) == InWindow(d.rows, s, w)
  {
    var after := PosterSet(d, gas).rows;
    assert forall n :: n in after ==> after[n].ts == d.rows[n].ts;
  }

  lemma RepairKeeps(d: Db, boundary: nat, repairable: seq<Block>, gas: map<u64, u64>, sets: Sets)
    requires Consistent(d, boundary) && SameFork(d.rows, repairable) && Covered(gas, repairable)
    ensures Consistent(Repaired(d, repairable, gas, sets), boundary)
  {
    hide RebuildAll, Right, StartsOf, SameFork, Covered, InWindow, Start;
    var changed := PosterSet(d, gas);
    forall w: Width, s: nat | Stored(w) && s % w == 0 && s !in StartsOf(repairable, w)
      ensures InWindow(changed.rows, s, w) == InWindow(d.rows, s, w)
    {
      StartAmong(repairable, w, s);
      RepairReaches(d, repairable, gas, w, s);
    }
    RebuildRestores(d, changed, repairable, sets, boundary);
  }

  lemma PruneKeeps(d: Db, boundary: nat, before: nat)
    requires Consistent(d, boundary)
    ensures Consistent(PrunedAt(d, before), boundary)
  {
    hide Right;
    var e := PrunedAt(d, before);
    forall w, s | InScope(e, boundary, w, s) ensures Right(e, w, s) {
      assert InScope(d, boundary, w, s);
      assert InWindow(e.rows, s, w) == InWindow(d.rows, s, w);
      assert AgreeAt(d, e, w, s);
      RightCarries(d, e, w, s);
    }
  }

  lemma SeedKeeps(d: Db, boundary: nat, cutoff: nat)
    requires Consistent(d, boundary)
    ensures Consistent(d.(frontier := Raised(d.frontier, cutoff)), boundary)
  {
    hide Right;
    var e := d.(frontier := Raised(d.frontier, cutoff));
    forall w, s | InScope(e, boundary, w, s) ensures Right(e, w, s) {
      assert InScope(d, boundary, w, s);
      AgreeSelf(d, w, s);
      assert AgreeAt(d, e, w, s);
      RightCarries(d, e, w, s);
    }
  }

  lemma DropKeeps(d: Db, boundary: nat)
    requires Consistent(d, boundary)
    ensures Consistent(DeletedBefore(d, boundary), boundary)
  {
    hide Right, InWindow;
    var e := DeletedBefore(d, boundary);
    forall w, s | InScope(e, boundary, w, s) ensures Right(e, w, s) {
      assert InScope(d, boundary, w, s);
      assert AgreeAt(d, e, w, s);
      RightCarries(d, e, w, s);
    }
  }

  lemma DiscardKeeps(d: Db, v: nat, starts: seq<nat>, boundary: nat)
    requires Consistent(d, boundary)
    ensures Consistent(Discarded(d, v, starts), boundary)
  {
    hide Right, InWindow;
    var e := Discarded(d, v, starts);
    forall w, s | InScope(e, boundary, w, s) ensures Right(e, w, s) {
      assert InScope(d, boundary, w, s);
      assert AgreeAt(d, e, w, s);
      RightCarries(d, e, w, s);
    }
  }

  lemma {:induction false} SortedHolds(rows: map<u64, Block>, n: u64)
    requires n in rows
    ensures rows[n] in Sorted(rows)
    decreases |rows|
  {
    var m := Greatest(rows.Keys);
    SortedStep(rows, m);
    if n != m {
      SortedHolds(rows - {m}, n);
    }
  }

  lemma RewindReaches(d: Db, ancestor: u64, w: Width, s: nat)
    requires s % w == 0 && s !in StartsOf(RowsAfter(d, ancestor), w)
    ensures InWindow(DeletedAfter(d, ancestor).rows, s, w) == InWindow(d.rows, s, w)
  {
    hide Start, StartsOf;
    var removed := RowsAfter(d, ancestor);
    StartAmong(removed, w, s);
    forall n: u64 | n in d.rows && n > ancestor ensures !(s <= d.rows[n].ts < s + w) {
      var gone := map m | m in d.rows && m > ancestor :: d.rows[m];
      SortedHolds(gone, n);
      OutsideWindow(d.rows[n].ts, w, s);
    }
  }

  lemma RewindKeeps(d: Db, boundary: nat, ancestor: u64, cleared: bool, sets: Sets)
    requires Consistent(d, boundary)
    ensures Consistent(Rewound(d, boundary, ancestor, cleared, sets), boundary)
  {
    hide RebuildAll, Consistent, StartsOf, InWindow, RowsAfter, Discarded, DeletedBefore;
    var removed := RowsAfter(d, ancestor);
    forall w: Width, s: nat | Stored(w) && s % w == 0 && s !in StartsOf(removed, w)
      ensures InWindow(DeletedAfter(d, ancestor).rows, s, w) == InWindow(d.rows, s, w)
    {
      RewindReaches(d, ancestor, w, s);
    }
    RebuildRestores(d, DeletedAfter(d, ancestor), removed, sets, boundary);
    var d0 := RebuildAll(DeletedAfter(d, ancestor), removed, sets);
    var d1 := Discarded(d0, MINUTE, StartsOf(removed, MINUTE));
    var d2 := Discarded(d1, QUARTER, StartsOf(removed, QUARTER));
    DiscardKeeps(d0, MINUTE, StartsOf(removed, MINUTE), boundary);
    DiscardKeeps(d1, QUARTER, StartsOf(removed, QUARTER), boundary);
    DiscardKeeps(d2, HOUR, StartsOf(removed, HOUR), boundary);
    if cleared { DropKeeps(DiscardAll(d0, removed), boundary); }
  }

  // ----- every reachable state -----

  lemma StepKeeps(d: Db, boundary: nat, step: Step)
    requires Consistent(d, boundary) && Enabled(d, boundary, step)
    ensures Consistent(Apply(d, boundary, step), boundary)
  {
    hide Consistent, SameFork, Covered, Committed, Filled, Backfilled, Repaired, PrunedAt, Rewound, DeletedBefore;
    match step
    case Commit(rows, sets) => CommitKeeps(d, boundary, rows, sets);
    case Fill(rows, tail, folded, sets) => FillKeeps(d, boundary, rows, tail, folded, sets);
    case Backfill(rows, sets) => BackfillKeeps(d, boundary, rows, sets);
    case Repair(repairable, gas, sets) => RepairKeeps(d, boundary, repairable, gas, sets);
    case Prune(before) => PruneKeeps(d, boundary, before);
    case SeedFrontier(cutoff) => SeedKeeps(d, boundary, cutoff);
    case Rewind(ancestor, cleared, sets) => RewindKeeps(d, boundary, ancestor, cleared, sets);
    case DropAdditive => DropKeeps(d, boundary);
  }

  const EMPTY_DB: Db := Db(map[], map[], None)

  /** The state after a run of transactions from an empty store, each enabled where it runs. */
  ghost predicate Reaches(boundary: nat, steps: seq<Step>, d: Db)
    decreases |steps|
  {
    if steps == [] then d == EMPTY_DB
    else
      var n := |steps| - 1;
      exists before :: Reaches(boundary, steps[..n], before) && Enabled(before, boundary, steps[n])
                       && d == Apply(before, boundary, steps[n])
  }

  /** In every reachable state each bucket at or above both the boundary and the prune frontier is the
      builder's over the stored rows of its window, and is absent when the window has none. */
  lemma {:induction false} BucketsFollowRows(boundary: nat, steps: seq<Step>, d: Db)
    requires Reaches(boundary, steps, d)
    ensures Consistent(d, boundary)
    decreases |steps|
  {
    if steps == [] {
      NothingStored(boundary);
    } else {
      hide Consistent, Enabled, Apply;
      var n := |steps| - 1;
      var before :| Reaches(boundary, steps[..n], before) && Enabled(before, boundary, steps[n])
                    && d == Apply(before, boundary, steps[n]);
      BucketsFollowRows(boundary, steps[..n], before);
      StepKeeps(before, boundary, steps[n]);
    }
  }

  lemma NothingStored(boundary: nat)
    ensures Consistent(EMPTY_DB, boundary)
  {
    forall w: nat, s: nat ensures InWindow(EMPTY_DB.rows, s, w) == map[] {
    }
  }

  // ----- the transactions as methods on the store object -----

  method RebuildWindows(store: MemStore, rows: seq<Block>, sets: Sets)
    modifies store
    ensures store.Value() == RebuildAll(old(store.Value()), rows, sets)
  {
    hide Rebuilt, StartsOf;
    store.RebuildBuckets(MINUTE, StartsOf(rows, MINUTE), sets);
    store.RebuildBuckets(QUARTER, StartsOf(rows, QUARTER), sets);
    store.RebuildBuckets(HOUR, StartsOf(rows, HOUR), sets);
  }

  method Persist(store: MemStore, rows: seq<Block>, sets: Sets)
    modifies store
    ensures store.Value() == Committed(old(store.Value()), rows, sets)
  {
    hide RebuildAll, Upserted;
    if |rows| > 0 {
      store.UpsertBlocks(rows);
      RebuildWindows(store, rows, sets);
    } else {
      NothingToRebuild(store.Value(), sets);
    }
  }

  lemma NothingToRebuild(d: Db, sets: Sets)
    ensures Committed(d, [], sets) == d
  {
  }

  method CommitFill(store: MemStore, boundary: nat, rows: seq<Block>, tail: Option<Block>, folded: u64, sets: Sets)
    modifies store
    ensures store.Value() == Filled(old(store.Value()), boundary, rows, tail, folded, sets)
  {
    hide RebuildAll, Upserted, FoldedIn, Entries, Groups, Recoverable, Filter;
    var rowBacked := RowBacked(rows, tail, boundary);
    var additive := Filter(rows, (x: Block) => x.ts < boundary && x.number >= folded);
    var foldable := Filter(rows, (x: Block) => x.ts >= boundary && x.number >= folded);
    var buckets := FoldBlocks(additive, sets);
    var rowFolds := FoldBlocks(foldable, sets);
    store.UpsertBlocks(rowBacked + Kept(tail, boundary));
    RebuildWindows(store, rowBacked, sets);
    var recovered := Recoverable(Db(store.rows, store.buckets, store.frontier), rowFolds);
    store.FoldBuckets(buckets + recovered);
  }

  lemma {:induction false} DiscardCommutes(d: Db, v: Width, gone: seq<nat>, w: Width, starts: seq<nat>, sets: Sets)
    requires v != w
    ensures Rebuilt(Discarded(d, v, gone), w, starts, sets) == Discarded(Rebuilt(d, w, starts, sets), v, gone)
    decreases |starts|
  {
    if starts != [] {
      hide Rebuilt, Discarded;
      var n := |starts| - 1;
      DiscardCommutes(d, v, gone, w, starts[..n], sets);
      RebuiltLast(d, w, starts, sets);
      RebuiltLast(Discarded(d, v, gone), w, starts, sets);
      DiscardCommutesOne(Rebuilt(d, w, starts[..n], sets), v, gone, w, starts[n], sets);
    }
  }

  lemma RebuiltLast(d: Db, w: Width, starts: seq<nat>, sets: Sets)
    requires starts != []
    ensures Rebuilt(d, w, starts, sets)
         == RebuiltOne(Rebuilt(d, w, starts[..|starts| - 1], sets), w, starts[|starts| - 1], sets)
  {
    hide RebuiltOne;
  }

  lemma DiscardCommutesOne(d: Db, v: Width, gone: seq<nat>, w: Width, s: nat, sets: Sets)
    requires v != w
    ensures RebuiltOne(Discarded(d, v, gone), w, s, sets) == Discarded(RebuiltOne(d, w, s, sets), v, gone)
  {
    hide Built, Sorted, InWindow, Spared;
    SparedUpdate(d.buckets, v, gone, d.frontier, Key(w, s), Built(Sorted(InWindow(d.rows, s, w)), sets));
    SparedRemove(d.buckets, v, gone, d.frontier, Key(w, s));
  }

  lemma SparedUpdate(m: map<Key, Bucket>, v: nat, gone: seq<nat>, frontier: Option<nat>, k: Key, b: Bucket)
    requires k.width != v
    ensures Spared(m[k := b], v, gone, frontier) == Spared(m, v, gone, frontier)[k := b]
  {
  }

  lemma SparedRemove(m: map<Key, Bucket>, v: nat, gone: seq<nat>, frontier: Option<nat>, k: Key)
    requires k.width != v
    ensures Spared(m - {k}, v, gone, frontier) == Spared(m, v, gone, frontier) - {k}
  {
  }

  /** rewindToAncestor over rows and buckets: each resolution is rebuilt, then what the store declined
      is discarded, before the next. */
  method RewindTo(store: MemStore, boundary: nat, ancestor: u64, cleared: bool, sets: Sets)
    modifies store
    ensures store.Value() == Rewound(old(store.Value()), boundary, ancestor, cleared, sets)
  {
    hide Rebuilt, StartsOf, RowsAfter, DeletedAfter, Discarded, DeletedBefore;
    var removed := store.DeleteBlocksAfter(ancestor);
    ghost var d := store.Value();
    var m, q, h := StartsOf(removed, MINUTE), StartsOf(removed, QUARTER), StartsOf(removed, HOUR);
    store.RebuildBuckets(MINUTE, m, sets);
    store.DiscardBucketsBelowFrontier(MINUTE, m);
    store.RebuildBuckets(QUARTER, q, sets);
    store.DiscardBucketsBelowFrontier(QUARTER, q);
    store.RebuildBuckets(HOUR, h, sets);
    store.DiscardBucketsBelowFrontier(HOUR, h);
    ghost var d1 := Rebuilt(d, MINUTE, m, sets);
    ghost var d2 := Rebuilt(d1, QUARTER, q, sets);
    DiscardCommutes(d1, MINUTE, m, QUARTER, q, sets);
    DiscardCommutes(d2, MINUTE, m, HOUR, h, sets);
    DiscardCommutes(Discarded(d2, MINUTE, m), QUARTER, q, HOUR, h, sets);
    if cleared { store.DeleteBucketsBefore(boundary); }
  }

  method PruneRows(store: MemStore, before: nat)
    modifies store
    ensures store.Value() == PrunedAt(old(store.Value()), before)
  {
    store.PruneBlocks(before);
    store.RecordPruneFrontier(before);
  }
}
