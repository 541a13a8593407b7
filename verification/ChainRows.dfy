/** The rows a chain transaction leaves, row by row, and the prune frontier: what the buckets are then rebuilt from. */
module ChainRows {
  import opened Words
  import opened Buckets
  import opened Windows
  import opened Store
  import opened Chain
  import opened AdditiveFolds

  ghost function Row(rows: map<u64, Block>, n: u64): Option<Block> { if n in rows then Some(rows[n]) else None }

  /** The last block of a batch with this number, of those stamped at or after `from`. */
  ghost function LastWith(blocks: seq<Block>, n: u64, from: nat): Option<Block>
    decreases |blocks|
  {
    if blocks == [] then None
    else
      var x := blocks[|blocks| - 1];
      if x.number == n && x.ts >= from then Some(x) else LastWith(blocks[..|blocks| - 1], n, from)
  }

  ghost function Or(a: Option<Block>, b: Option<Block>): Option<Block> { if a.Some? then a else b }

  /** Poster gas is written once, and only a value the row's own gas can hold. */
  ghost function WithPoster(x: Block, gas: Option<u64>): Block {
    if gas.Some? && x.posterGas.None? && gas.value <= x.gasUsed && gas.value <= MAX_I64 then x.(posterGas := Some(gas.value)) else x
  }

  /** What becomes of one row. */
  ghost function RowStep(row: Option<Block>, boundary: nat, step: Step, n: u64): Option<Block> {
    match step
    case Commit(rows, _) => Or(LastWith(rows, n, 0), row)
    case Fill(rows, tail, _, _) => if tail.Some? && tail.value.number == n then tail else Or(LastWith(rows, n, boundary), row)
    case Backfill(rows, _) => Or(LastWith(rows, n, boundary), row)
    case Repair(_, gas, _) => if row.Some? then Some(WithPoster(row.value, if n in gas then Some(gas[n]) else None)) else None
    case Prune(before) => if row.Some? && row.value.ts < before then None else row
    case SeedFrontier(_) => row
    case Rewind(ancestor, _, _) => if n > ancestor then None else row
    case DropAdditive => row
  }

  ghost function FrontierStep(frontier: Option<nat>, step: Step): Option<nat> {
    var cutoff := if step.Prune? then Some(step.before) else if step.SeedFrontier? then Some(step.cutoff) else None;
    if cutoff.None? then frontier else if frontier.None? then cutoff else Some(Max(frontier.value, cutoff.value))
  }

  // ----- upserts -----

  lemma {:induction false} UpsertedRow(rows: map<u64, Block>, blocks: seq<Block>, n: u64)
    ensures Row(Upserted(rows, blocks), n) == Or(LastWith(blocks, n, 0), Row(rows, n))
    decreases |blocks|
  {
    if blocks != [] { UpsertedRow(rows, blocks[..|blocks| - 1], n); }
  }

  lemma {:induction false} FilteredLast(blocks: seq<Block>, p: Test, n: u64, from: nat)
    requires forall x: Block :: p(x) <==> x.ts >= from
    ensures LastWith(Filter(blocks, p), n, 0) == LastWith(blocks, n, from)
    decreases |blocks|
  {
    if blocks != [] {
      var f, x := Filter(blocks[..|blocks| - 1], p), blocks[|blocks| - 1];
      FilteredLast(blocks[..|blocks| - 1], p, n, from);
      LastMore(f, x, n, 0);
      assert f + [] == f;
    }
  }

  lemma LastMore(f: seq<Block>, x: Block, n: u64, from: nat)
    ensures LastWith(f + [x], n, from) == if x.number == n && x.ts >= from then Some(x) else LastWith(f, n, from)
  {
    assert (f + [x])[..|f|] == f;
  }

  lemma FillRow(d: Db, boundary: nat, rows: seq<Block>, tail: Option<Block>, n: u64)
    ensures Row(Upserted(d.rows, RowBacked(rows, tail, boundary) + Kept(tail, boundary)), n)
         == if tail.Some? && tail.value.number == n then tail else Or(LastWith(rows, n, boundary), Row(d.rows, n))
  {
    hide Upserted, Filter;
    var f := Filter(rows, (x: Block) => x.ts >= boundary);
    var stored := RowBacked(rows, tail, boundary) + Kept(tail, boundary);
    FilteredLast(rows, (x: Block) => x.ts >= boundary, n, boundary);
    UpsertedRow(d.rows, stored, n);
    if tail.Some? {
      assert stored == f + [tail.value];
      LastMore(f, tail.value, n, 0);
    } else {
      assert stored == f;
    }
  }

  // ----- every transaction -----

  lemma RebuiltRows(d: Db, rows: seq<Block>, sets: Sets)
    ensures RebuildAll(d, rows, sets).rows == d.rows && RebuildAll(d, rows, sets).frontier == d.frontier
  {
    RebuildAllEffect(d, rows, sets, HOUR, 0);
  }

  lemma FoldsKeepRows(d: Db, es: seq<Entry>)
    ensures FoldedIn(d, es).rows == d.rows && FoldedIn(d, es).frontier == d.frontier
  {
    hide FoldedIn;
    FoldedInRows(d, es);
    FoldedInFrontier(d, es);
  }

  lemma {:induction false} FoldedInRows(d: Db, es: seq<Entry>)
    ensures FoldedIn(d, es).rows == d.rows
    decreases |es|
  {
    hide Merge;
    if es != [] { FoldedInRows(d, es[..|es| - 1]); }
  }

  lemma FilledRows(d: Db, boundary: nat, rows: seq<Block>, tail: Option<Block>, folded: u64, sets: Sets)
    ensures var e := Filled(d, boundary, rows, tail, folded, sets);
            e.rows == Upserted(d.rows, RowBacked(rows, tail, boundary) + Kept(tail, boundary)) && e.frontier == d.frontier
  {
    hide RebuildAll, FoldedIn, AllEntries, Upserted, Recoverable, Filter, RowBacked, Kept;
    var rowBacked := RowBacked(rows, tail, boundary);
    var d0 := d.(rows := Upserted(d.rows, rowBacked + Kept(tail, boundary)));
    RebuiltRows(d0, rowBacked, sets);
    var d1 := RebuildAll(d0, rowBacked, sets);
    var additive := Filter(rows, (x: Block) => x.ts < boundary && x.number >= folded);
    var foldable := Filter(rows, (x: Block) => x.ts >= boundary && x.number >= folded);
    FoldsKeepRows(d1, AllEntries(additive, sets) + Recoverable(d1, AllEntries(foldable, sets)));
  }

  lemma BackfilledRows(d: Db, boundary: nat, rows: seq<Block>, sets: Sets)
    ensures var e := Backfilled(d, boundary, rows, sets);
            e.rows == Upserted(d.rows, Filter(rows, (x: Block) => x.ts >= boundary)) && e.frontier == d.frontier
  {
    hide RebuildAll, FoldedIn, AllEntries, Upserted, Filter;
    var rowBacked := Filter(rows, (x: Block) => x.ts >= boundary);
    var d0 := d.(rows := Upserted(d.rows, rowBacked));
    RebuiltRows(d0, rowBacked, sets);
    FoldsKeepRows(RebuildAll(d0, rowBacked, sets), AllEntries(Filter(rows, (x: Block) => x.ts < boundary), sets));
  }

  lemma RewoundRows(d: Db, boundary: nat, ancestor: u64, cleared: bool, sets: Sets)
    ensures var e := Rewound(d, boundary, ancestor, cleared, sets);
            e.rows == DeletedAfter(d, ancestor).rows && e.frontier == d.frontier
  {
    hide RebuildAll, StartsOf, RowsAfter;
    RebuiltRows(DeletedAfter(d, ancestor), RowsAfter(d, ancestor), sets);
  }

  /** Each transaction, for every block number: the row it leaves and the frontier. */
  lemma StepRows(d: Db, boundary: nat, step: Step, n: u64)
    ensures Row(Apply(d, boundary, step).rows, n) == RowStep(Row(d.rows, n), boundary, step, n)
    ensures Apply(d, boundary, step).frontier == FrontierStep(d.frontier, step)
  {
    hide RebuildAll, Filled, Backfilled, Rewound, Upserted, Filter, RowBacked, Kept, LastWith;
    match step
    case Commit(rows, sets) =>
      RebuiltRows(d.(rows := Upserted(d.rows, rows)), rows, sets);
      UpsertedRow(d.rows, rows, n);
    case Fill(rows, tail, folded, sets) =>
      FilledRows(d, boundary, rows, tail, folded, sets);
      FillRow(d, boundary, rows, tail, n);
    case Backfill(rows, sets) =>
      BackfilledRows(d, boundary, rows, sets);
      UpsertedRow(d.rows, Filter(rows, (x: Block) => x.ts >= boundary), n);
      FilteredLast(rows, (x: Block) => x.ts >= boundary, n, boundary);
    case Repair(repairable, gas, sets) =>
      RebuiltRows(PosterSet(d, gas), repairable, sets);
    case Prune(before) =>
    case SeedFrontier(cutoff) =>
    case Rewind(ancestor, cleared, sets) =>
      RewoundRows(d, boundary, ancestor, cleared, sets);
    case DropAdditive =>
  }

  // ----- whole runs -----

  ghost function RowOver(row: Option<Block>, boundary: nat, steps: seq<Step>, n: u64): Option<Block>
    decreases |steps|
  {
    if steps == [] then row else RowOver(RowStep(row, boundary, steps[0], n), boundary, steps[1..], n)
  }

  lemma {:induction false} RunRows(d: Db, boundary: nat, steps: seq<Step>, n: u64)
    ensures Row(Ran(d, boundary, steps).rows, n) == RowOver(Row(d.rows, n), boundary, steps, n)
    decreases |steps|
  {
    hide Apply, RowStep;
    if steps != [] {
      StepRows(d, boundary, steps[0], n);
      RunRows(Apply(d, boundary, steps[0]), boundary, steps[1..], n);
    }
  }

  /** A step that leaves row n alone once it is written as x, its poster gas aside. */
  ghost predicate Spares(step: Step, x: Block) {
    match step
    case Commit(rows, _) => LastWith(rows, x.number, 0).None?
    case Fill(rows, tail, _, _) => LastWith(rows, x.number, 0).None? && (tail.Some? ==> tail.value.number != x.number)
    case Backfill(rows, _) => LastWith(rows, x.number, 0).None?
    case Prune(before) => before <= x.ts
    case Rewind(ancestor, _, _) => x.number <= ancestor
    case _ => true
  }

  lemma {:induction false} NoneFromNone(blocks: seq<Block>, n: u64, from: nat)
    requires LastWith(blocks, n, 0).None?
    ensures LastWith(blocks, n, from).None?
    decreases |blocks|
  {
    if blocks != [] { NoneFromNone(blocks[..|blocks| - 1], n, from); }
  }

  /** A stored row stays, and only its poster gas can change, until it is written again, pruned or rewound. */
  lemma {:induction false} RowsLast(d: Db, boundary: nat, steps: seq<Step>, n: u64)
    requires n in d.rows && d.rows[n].number == n
    requires forall i :: 0 <= i < |steps| ==> Spares(steps[i], d.rows[n])
    ensures var e := Ran(d, boundary, steps);
            && n in e.rows && e.rows[n].(posterGas := None) == d.rows[n].(posterGas := None)
            && (d.rows[n].posterGas.Some? ==> e.rows[n] == d.rows[n])
    decreases |steps|
  {
    hide Apply, LastWith;
    if steps != [] {
      var step := steps[0];
      assert Spares(step, d.rows[n]);
      StepRows(d, boundary, step, n);
      if step.Fill? || step.Backfill? { NoneFromNone(step.rows, n, boundary); }
      var e := Apply(d, boundary, step);
      assert n in e.rows && e.rows[n].(posterGas := None) == d.rows[n].(posterGas := None);
      forall i | 0 <= i < |steps[1..]| ensures Spares(steps[1..][i], e.rows[n]) {
        assert Spares(steps[i + 1], d.rows[n]);
        SparesToo(steps[i + 1], d.rows[n], e.rows[n]);
      }
      RowsLast(e, boundary, steps[1..], n);
    }
  }

  lemma SparesToo(step: Step, x: Block, y: Block)
    requires Spares(step, x) && x.(posterGas := None) == y.(posterGas := None)
    ensures Spares(step, y)
  {
    assert x.(posterGas := None).number == x.number && y.(posterGas := None).number == y.number;
    assert x.(posterGas := None).ts == x.ts && y.(posterGas := None).ts == y.ts;
  }

  // ----- the rows in order -----

  ghost predicate OwnNumbers(rows: map<u64, Block>) { forall n :: n in rows ==> rows[n].number == n }

  ghost predicate Ascends(r: seq<Block>) { forall i, j :: 0 <= i < j < |r| ==> r[i].number < r[j].number }

  ghost predicate Lists(r: seq<Block>, rows: map<u64, Block>) {
    && (forall i :: 0 <= i < |r| ==> r[i].number in rows && rows[r[i].number] == r[i])
    && (forall n :: n in rows ==> rows[n] in r)
  }

  lemma OneMoreListed(r: seq<Block>, rows: map<u64, Block>, m: u64)
    requires IsGreatest(rows.Keys, m) && OwnNumbers(rows) && Ascends(r) && Lists(r, rows - {m})
    ensures Ascends(r + [rows[m]]) && Lists(r + [rows[m]], rows)
  {
    var more := r + [rows[m]];
    forall n | n in rows ensures rows[n] in more {
      if n == m { assert more[|r|] == rows[m]; } else { assert n in rows - {m} && rows[n] in r; }
    }
  }

  /** Rows stored under their own number come back ascending, and are exactly the stored ones. */
  lemma {:induction false} SortedAscends(rows: map<u64, Block>)
    requires OwnNumbers(rows)
    ensures Ascends(Sorted(rows)) && Lists(Sorted(rows), rows)
    decreases |rows|
  {
    if rows == map[] {
      assert Sorted(rows) == [];
    } else {
      hide Sorted, Ascends, Lists;
      var m := Greatest(rows.Keys);
      SortedStep(rows, m);
      SortedAscends(rows - {m});
      OneMoreListed(Sorted(rows - {m}), rows, m);
    }
  }
}
