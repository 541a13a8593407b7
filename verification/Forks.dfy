/** The bucket store under a chain that reorganises. Every writer fetches from the fork its generation saw
    (internal/collector/collector.go); a rewind deletes what the forks do not share and moves to the next
    generation; work captured under an older one is discarded when it comes to commit. */
module Forks {
  import opened Words
  import opened Buckets
  import opened Windows
  import opened Store
  import opened Chain

  /** The timestamp of each block number on one fork. */
  type Fork = u64 -> nat

  /** `forks` holds the fork of each generation so far; the last is the current one. */
  datatype World = World(db: Db, forks: seq<Fork>)

  datatype Event =
    | Write(captured: nat, step: Step)
    | Reorg(ancestor: u64, cleared: bool, sets: Sets, fork: Fork)

  ghost predicate Of(rows: seq<Block>, fork: Fork) { forall i :: 0 <= i < |rows| ==> rows[i].ts == fork(rows[i].number) }

  /** The rows a transaction carries were read from one fork. */
  ghost predicate Fetched(step: Step, fork: Fork) {
    match step
    case Commit(rows, _) => Of(rows, fork)
    case Fill(rows, tail, _, _) => Of(rows, fork) && (tail.Some? ==> tail.value.ts == fork(tail.value.number))
    case Backfill(rows, _) => Of(rows, fork)
    case Repair(repairable, gas, _) => Of(repairable, fork) && Covered(gas, repairable)
    case _ => true
  }

  ghost predicate Possible(w: World, e: Event) {
    && w.forks != []
    && match e
       case Write(captured, step) => captured < |w.forks| && !step.Rewind? && Fetched(step, w.forks[captured])
       case Reorg(ancestor, _, _, fork) => forall n: u64 :: n <= ancestor ==> fork(n) == w.forks[|w.forks| - 1](n)
  }

  ghost function Next(w: World, boundary: nat, e: Event): World {
    match e
    case Write(captured, step) => if captured + 1 == |w.forks| then w.(db := Apply(w.db, boundary, step)) else w
    case Reorg(ancestor, cleared, sets, fork) =>
      World(Apply(w.db, boundary, Rewind(ancestor, cleared, sets)), w.forks + [fork])
  }

  ghost predicate OnFork(d: Db, fork: Fork) { forall n :: n in d.rows ==> d.rows[n].number == n && d.rows[n].ts == fork(n) }

  ghost predicate Inv(w: World, boundary: nat) {
    w.forks != [] && Consistent(w.db, boundary) && OnFork(w.db, w.forks[|w.forks| - 1])
  }

  // ----- rows stay on the fork -----

  lemma SameForkOf(d: Db, rows: seq<Block>, fork: Fork)
    requires OnFork(d, fork) && Of(rows, fork)
    ensures SameFork(d.rows, rows)
  {
  }

  lemma {:induction false} UpsertOnFork(d: Db, rows: seq<Block>, fork: Fork)
    requires OnFork(d, fork) && Of(rows, fork)
    ensures OnFork(d.(rows := Upserted(d.rows, rows)), fork)
    decreases |rows|
  {
    if rows != [] { UpsertOnFork(d, rows[..|rows| - 1], fork); }
  }

  lemma {:induction false} FoldRows(d: Db, es: seq<Entry>)
    ensures FoldedIn(d, es).rows == d.rows
    decreases |es|
  {
    hide Merge;
    if es != [] { FoldRows(d, es[..|es| - 1]); }
  }

  lemma RebuildRows(d: Db, rows: seq<Block>, sets: Sets)
    ensures RebuildAll(d, rows, sets).rows == d.rows
  {
    RebuildAllEffect(d, rows, sets, HOUR, 0);
  }

  lemma {:induction false} FilterOf(rows: seq<Block>, p: Test, fork: Fork)
    requires Of(rows, fork)
    ensures Of(Filter(rows, p), fork)
    decreases |rows|
  {
    if rows != [] { FilterOf(rows[..|rows| - 1], p, fork); }
  }

  lemma RowBackedOf(rows: seq<Block>, tail: Option<Block>, boundary: nat, fork: Fork)
    requires Of(rows, fork) && (tail.Some? ==> tail.value.ts == fork(tail.value.number))
    ensures Of(RowBacked(rows, tail, boundary) + Kept(tail, boundary), fork)
  {
    FilterOf(rows, (x: Block) => x.ts >= boundary, fork);
  }

  /** A transaction of the current fork is one the store's steps allow. */
  lemma FetchedIsEnabled(d: Db, boundary: nat, step: Step, fork: Fork)
    requires OnFork(d, fork) && Fetched(step, fork)
    ensures Enabled(d, boundary, step)
  {
    hide SameFork, Covered, OnFork, Of;
    match step
    case Commit(rows, _) => SameForkOf(d, rows, fork);
    case Fill(rows, tail, _, _) =>
      RowBackedOf(rows, tail, boundary, fork);
      SameForkOf(d, RowBacked(rows, tail, boundary) + Kept(tail, boundary), fork);
    case Backfill(rows, _) =>
      FilterOf(rows, (x: Block) => x.ts >= boundary, fork);
      SameForkOf(d, Filter(rows, (x: Block) => x.ts >= boundary), fork);
    case Repair(repairable, _, _) => SameForkOf(d, repairable, fork);
    case _ =>
  }

  lemma StaysOnFork(d: Db, boundary: nat, step: Step, fork: Fork)
    requires OnFork(d, fork) && Fetched(step, fork) && !step.Rewind?
    ensures OnFork(Apply(d, boundary, step), fork)
  {
    hide RebuildAll, FoldedIn, AllEntries, Recoverable, Of, Upserted, RowBacked, Kept;
    match step
    case Commit(rows, sets) =>
      UpsertOnFork(d, rows, fork);
      RebuildRows(d.(rows := Upserted(d.rows, rows)), rows, sets);
    case Fill(rows, tail, folded, sets) => FillOnFork(d, boundary, rows, tail, folded, sets, fork);
    case Backfill(rows, sets) => BackfillOnFork(d, boundary, rows, sets, fork);
    case Repair(repairable, gas, sets) => RebuildRows(PosterSet(d, gas), repairable, sets);
    case Prune(_) =>
    case SeedFrontier(_) =>
    case DropAdditive =>
  }

  lemma FillOnFork(d: Db, boundary: nat, rows: seq<Block>, tail: Option<Block>, folded: u64, sets: Sets, fork: Fork)
    requires OnFork(d, fork) && Of(rows, fork) && (tail.Some? ==> tail.value.ts == fork(tail.value.number))
    ensures OnFork(Filled(d, boundary, rows, tail, folded, sets), fork)
  {
    hide RebuildAll, FoldedIn, AllEntries, Recoverable, Of, Upserted, RowBacked, Kept;
    RowBackedOf(rows, tail, boundary, fork);
    var rowBacked := RowBacked(rows, tail, boundary);
    var additive := Filter(rows, (x: Block) => x.ts < boundary && x.number >= folded);
    var foldable := Filter(rows, (x: Block) => x.ts >= boundary && x.number >= folded);
    var d0 := d.(rows := Upserted(d.rows, rowBacked + Kept(tail, boundary)));
    UpsertOnFork(d, rowBacked + Kept(tail, boundary), fork);
    RebuildRows(d0, rowBacked, sets);
    var d1 := RebuildAll(d0, rowBacked, sets);
    FoldRows(d1, AllEntries(additive, sets) + Recoverable(d1, AllEntries(foldable, sets)));
  }

  lemma BackfillOnFork(d: Db, boundary: nat, rows: seq<Block>, sets: Sets, fork: Fork)
    requires OnFork(d, fork) && Of(rows, fork)
    ensures OnFork(Backfilled(d, boundary, rows, sets), fork)
  {
    hide RebuildAll, FoldedIn, AllEntries, Of, Upserted;
    var rowBacked := Filter(rows, (x: Block) => x.ts >= boundary);
    var additive := Filter(rows, (x: Block) => x.ts < boundary);
    FilterOf(rows, (x: Block) => x.ts >= boundary, fork);
    UpsertOnFork(d, rowBacked, fork);
    var d0 := d.(rows := Upserted(d.rows, rowBacked));
    RebuildRows(d0, rowBacked, sets);
    FoldRows(RebuildAll(d0, rowBacked, sets), AllEntries(additive, sets));
  }

  /** A rewind leaves only rows both forks share. */
  lemma RewindChangesFork(d: Db, boundary: nat, ancestor: u64, cleared: bool, sets: Sets, fork: Fork, next: Fork)
    requires OnFork(d, fork) && forall n: u64 :: n <= ancestor ==> next(n) == fork(n)
    ensures OnFork(Rewound(d, boundary, ancestor, cleared, sets), next)
  {
    hide RebuildAll, RowsAfter;
    RebuildRows(DeletedAfter(d, ancestor), RowsAfter(d, ancestor), sets);
  }

  // ----- whole histories -----

  lemma EventKeeps(w: World, boundary: nat, e: Event)
    requires Inv(w, boundary) && Possible(w, e)
    ensures Inv(Next(w, boundary, e), boundary)
  {
    hide Consistent, OnFork, Fetched, Apply, Enabled;
    var fork := w.forks[|w.forks| - 1];
    match e
    case Write(captured, step) =>
      if captured + 1 == |w.forks| {
        FetchedIsEnabled(w.db, boundary, step, fork);
        StepKeeps(w.db, boundary, step);
        StaysOnFork(w.db, boundary, step, fork);
      }
    case Reorg(ancestor, cleared, sets, next) =>
      RewindStep(w.db, boundary, ancestor, cleared, sets, fork, next);
  }

  lemma RewindStep(d: Db, boundary: nat, ancestor: u64, cleared: bool, sets: Sets, fork: Fork, next: Fork)
    requires Consistent(d, boundary) && OnFork(d, fork) && forall n: u64 :: n <= ancestor ==> next(n) == fork(n)
    ensures Consistent(Apply(d, boundary, Rewind(ancestor, cleared, sets)), boundary)
    ensures OnFork(Apply(d, boundary, Rewind(ancestor, cleared, sets)), next)
  {
    hide Consistent, OnFork, Rewound;
    StepKeeps(d, boundary, Rewind(ancestor, cleared, sets));
    RewindChangesFork(d, boundary, ancestor, cleared, sets, fork, next);
  }

  ghost predicate Legal(w: World, boundary: nat, events: seq<Event>)
    decreases |events|
  {
    events == [] || (Possible(w, events[0]) && Legal(Next(w, boundary, events[0]), boundary, events[1..]))
  }

  ghost function After(w: World, boundary: nat, events: seq<Event>): World
    requires Legal(w, boundary, events)
    decreases |events|
  {
    if events == [] then w else After(Next(w, boundary, events[0]), boundary, events[1..])
  }

  lemma {:induction false} HistoryKeeps(w: World, boundary: nat, events: seq<Event>)
    requires Inv(w, boundary) && Legal(w, boundary, events)
    ensures Inv(After(w, boundary, events), boundary)
    decreases |events|
  {
    hide Inv, Next, Possible;
    if events != [] {
      EventKeeps(w, boundary, events[0]);
      HistoryKeeps(Next(w, boundary, events[0]), boundary, events[1..]);
    }
  }

  /** Through any history of commits, fills, backfills, repairs, prunes, reorganisations and stale writes,
      each bucket in scope is the builder's over the stored rows of its window, and the rows are one fork's. */
  lemma BucketsFollowTheFork(first: Fork, boundary: nat, events: seq<Event>)
    requires Legal(World(EMPTY_DB, [first]), boundary, events)
    ensures var w := After(World(EMPTY_DB, [first]), boundary, events);
            && w.forks != []
            && Consistent(w.db, boundary)
            && OnFork(w.db, w.forks[|w.forks| - 1])
  {
    NothingStored(boundary);
    HistoryKeeps(World(EMPTY_DB, [first]), boundary, events);
  }
}
