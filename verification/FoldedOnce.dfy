/** The queue of missing ranges and the chain store together: each batch of a fill advances the queue and folds into the
    buckets in one transaction (commitFill of internal/collector/fill.go). Watermarks that let no block be folded twice
    make every bucket below the live boundary that of blocks with distinct numbers. */
module FoldedOnce {
  import opened Words
  import opened Buckets
  import opened BucketLaws
  import opened BucketMeaning
  import opened Windows
  import Store
  import Chain
  import opened AdditiveFolds
  import Holes
  import HoleRuns

  /** `log` lists the blocks folded additively since the additive buckets were last deleted, `below` the numbers of those
      the backfill folded. */
  datatype World = World(q: HoleRuns.State, d: Store.Db, log: seq<Block>, below: set<nat>)

  datatype Event =
    | Queue(step: HoleRuns.Step)
    | Land(rows: seq<Block>, tail: Option<Block>, sets: Sets)
    | Backfill(rows: seq<Block>, sets: Sets)
    | Rows(change: Chain.Step)
    | Reorg(ancestor: u64, cleared: bool, sets: Sets)
    | Drop

  ghost function Additive(rows: seq<Block>, boundary: nat, folded: u64): seq<Block> { Due(rows, 0, boundary, folded) }

  ghost function Numbers(xs: seq<Block>): set<nat> { set i | 0 <= i < |xs| :: xs[i].number as nat }

  /** The batch is the captured range's next blocks, in order. */
  ghost predicate Batch(h: Holes.Hole, rows: seq<Block>) { forall i :: 0 <= i < |rows| ==> rows[i].number == h.Start() + i }

  ghost function Commit(h: Holes.Hole, boundary: nat, rows: seq<Block>): HoleRuns.Step
    requires h.folded < TWO_64
  {
    HoleRuns.Commit(|rows|, Numbers(Additive(rows, boundary, h.folded)))
  }

  /** The tests on the queue are those under which it folds nothing twice. The backfill's blocks are apart from the fills'. */
  ghost predicate Possible(w: World, boundary: nat, e: Event) {
    match e
    case Queue(step) =>
      && (step.Record? || step.Capture? || step.GiveUp? || step.Mark?)
      && HoleRuns.Enabled(w.q, step) && (step.Record? ==> HoleRuns.Sheltered(w.q, step.r))
    case Land(rows, _, _) =>
      && w.q.flight.Some? && w.q.flight.value.h.folded < TWO_64
      && var h := w.q.flight.value.h;
         && Batch(h, rows) && HoleRuns.Enabled(w.q, Commit(h, boundary, rows))
         && (HoleRuns.Live(w.q) ==> HoleRuns.Anchored(w.q.holes, h))
         && Numbers(Additive(rows, boundary, h.folded)) !! w.below
    case Backfill(rows, _) =>
      var xs := Additive(rows, boundary, 0);
      Distinct(xs) && Numbers(xs) !! w.below && forall b :: b in Numbers(xs) ==> w.q.folds[b] == 0
    case Rows(step) =>
      (step.Commit? || step.Repair? || step.Prune? || step.SeedFrontier?) && Allowed(w.d, boundary, step)
    case Reorg(ancestor, cleared, sets) => Allowed(w.d, boundary, Chain.Rewind(ancestor, cleared, sets))
    case Drop => true
  }

  ghost function Next(w: World, boundary: nat, e: Event): World
    requires Possible(w, boundary, e)
  {
    match e
    case Queue(step) => w.(q := HoleRuns.Next(w.q, step))
    case Land(rows, tail, sets) =>
      var h := w.q.flight.value.h;
      var q := HoleRuns.Next(w.q, Commit(h, boundary, rows));
      if HoleRuns.Live(w.q)
      then w.(q := q, d := Chain.Apply(w.d, boundary, Chain.Fill(rows, tail, h.folded, sets)),
              log := w.log + Additive(rows, boundary, h.folded))
      else w.(q := q)
    case Backfill(rows, sets) =>
      w.(d := Chain.Apply(w.d, boundary, Chain.Backfill(rows, sets)), log := w.log + Additive(rows, boundary, 0),
         below := w.below + Numbers(Additive(rows, boundary, 0)))
    case Rows(step) => w.(d := Chain.Apply(w.d, boundary, step))
    case Reorg(ancestor, cleared, sets) =>
      World(HoleRuns.Next(w.q, HoleRuns.Rewind(ancestor, cleared)), Chain.Apply(w.d, boundary, Chain.Rewind(ancestor, cleared, sets)),
            if cleared then [] else w.log, if cleared then {} else w.below)
    case Drop =>
      World(w.q.(folds := multiset{}), Chain.Apply(w.d, boundary, Chain.DropAdditive), [], {})
  }

  // ----- the invariant -----

  /** Every stored window below the boundary holds exactly the logged blocks that lie in it. */
  ghost predicate Follows(d: Store.Db, boundary: nat, log: seq<Block>) {
    forall w: Width, s: nat :: Chain.Stored(w) && s % w == 0 && s < boundary ==> Holds(d, w, s, Window(log, s, w))
  }

  /** The log is the queue's count and the backfill's share, apart. */
  ghost predicate Counted(w: World) {
    && Distinct(w.log)
    && (forall b: nat :: b in Numbers(w.log) <==> b in w.below || w.q.folds[b] > 0)
    && (forall b: nat :: b in w.below ==> w.q.folds[b] == 0)
  }

  ghost predicate Inv(w: World, boundary: nat) {
    HoleRuns.Inv(w.q) && Counted(w) && Follows(w.d, boundary, w.log)
  }

  // ----- the log -----

  lemma {:induction false} WindowJoin(a: seq<Block>, b: seq<Block>, s: nat, w: nat)
    ensures Window(a + b, s, w) == Window(a, s, w) + Window(b, s, w)
    decreases |b|
  {
    if b == [] {
      assert a + b == a;
    } else {
      assert (a + b)[..|a + b| - 1] == a + b[..|b| - 1];
      WindowJoin(a, b[..|b| - 1], s, w);
    }
  }

  lemma {:induction false} DueDistinct(rows: seq<Block>, from: nat, to: nat, folded: u64)
    requires Distinct(rows)
    ensures Distinct(Due(rows, from, to, folded))
    ensures forall x :: x in Due(rows, from, to, folded) ==> x in rows
    decreases |rows|
  {
    if rows != [] {
      var n := |rows| - 1;
      DueDistinct(rows[..n], from, to, folded);
      var due := Due(rows[..n], from, to, folded);
      forall i | 0 <= i < |due| ensures due[i].number != rows[n].number {
        assert due[i] in rows[..n];
        var j :| 0 <= j < n && rows[..n][j] == due[i];
        assert rows[j].number != rows[n].number;
      }
      assert forall x :: x in rows[..n] ==> x in rows;
    }
  }

  lemma BatchDistinct(h: Holes.Hole, rows: seq<Block>)
    requires Batch(h, rows)
    ensures Distinct(rows)
  {
  }

  lemma NumbersJoin(a: seq<Block>, b: seq<Block>)
    ensures Numbers(a + b) == Numbers(a) + Numbers(b)
  {
    forall n | n in Numbers(b) ensures n in Numbers(a + b) {
      var i :| 0 <= i < |b| && n == b[i].number as nat;
      assert (a + b)[|a| + i] == b[i];
    }
    forall n | n in Numbers(a) ensures n in Numbers(a + b) {
      var i :| 0 <= i < |a| && n == a[i].number as nat;
      assert (a + b)[i] == a[i];
    }
    forall n | n in Numbers(a + b) ensures n in Numbers(a) + Numbers(b) {
      var i :| 0 <= i < |a + b| && n == (a + b)[i].number as nat;
      assert (a + b)[i] == if i < |a| then a[i] else b[i - |a|];
    }
  }

  lemma DistinctJoin(a: seq<Block>, b: seq<Block>)
    requires Distinct(a) && Distinct(b) && Numbers(a) !! Numbers(b)
    ensures Distinct(a + b)
  {
    forall i, j | 0 <= i < j < |a + b| ensures (a + b)[i].number != (a + b)[j].number {
      if i < |a| && j >= |a| {
        assert a[i].number as nat in Numbers(a) && b[j - |a|].number as nat in Numbers(b);
      }
    }
  }

  // ----- the store follows -----

  /** A fold of a batch moves every window by the batch's part of the log. */
  lemma FoldFollows(d: Store.Db, boundary: nat, step: Chain.Step, log: seq<Block>, rows: seq<Block>, folded: u64)
    requires OnTheHour(boundary) && Follows(d, boundary, log)
    requires (step.Fill? && step.rows == rows && step.folded == folded) || (step.Backfill? && step.rows == rows && folded == 0)
    ensures Follows(Chain.Apply(d, boundary, step), boundary, log + Additive(rows, boundary, folded))
  {
    hide Chain.Apply, Holds, Due, Window, OnTheHour;
    var more := log + Additive(rows, boundary, folded);
    forall w: Width, s: nat | Chain.Stored(w) && s % w == 0 && s < boundary
      ensures Holds(Chain.Apply(d, boundary, step), w, s, Window(more, s, w))
    {
      StepHolds(d, boundary, step, w, s, Window(log, s, w));
      BelowIsWhole(boundary, w, s);
      DueInWindow(rows, boundary, folded, s, w);
      WindowJoin(log, Additive(rows, boundary, folded), s, w);
    }
  }

  lemma OtherFollows(d: Store.Db, boundary: nat, step: Chain.Step, log: seq<Block>)
    requires OnTheHour(boundary) && Follows(d, boundary, log) && Allowed(d, boundary, step)
    requires !step.Fill? && !step.Backfill?
    ensures Follows(Chain.Apply(d, boundary, step), boundary, if step.DropAdditive? || (step.Rewind? && step.cleared) then [] else log)
  {
    hide Chain.Apply, Holds, Window, OnTheHour, Allowed;
    var after := if step.DropAdditive? || (step.Rewind? && step.cleared) then [] else log;
    forall w: Width, s: nat | Chain.Stored(w) && s % w == 0 && s < boundary
      ensures Holds(Chain.Apply(d, boundary, step), w, s, Window(after, s, w))
    {
      StepHolds(d, boundary, step, w, s, Window(log, s, w));
      NoWindow(s, w);
    }
  }

  lemma NoWindow(s: nat, w: nat)
    ensures Window([], s, w) == []
  {
  }

  // ----- each event -----

  lemma LandCounted(w: World, boundary: nat, rows: seq<Block>, tail: Option<Block>, sets: Sets)
    requires Inv(w, boundary) && Possible(w, boundary, Land(rows, tail, sets)) && HoleRuns.Live(w.q)
    ensures HoleRuns.Inv(Next(w, boundary, Land(rows, tail, sets)).q)
    ensures Counted(Next(w, boundary, Land(rows, tail, sets)))
  {
    hide HoleRuns.Inv, Follows, Numbers, Due, Distinct, HoleRuns.Anchored, Batch, Chain.Apply;
    var h := w.q.flight.value.h;
    var xs := Additive(rows, boundary, h.folded);
    var step := Commit(h, boundary, rows);
    HoleRuns.StepKeeps(w.q, step);
    BatchDistinct(h, rows);
    DueDistinct(rows, 0, boundary, h.folded);
    NumbersJoin(w.log, xs);
    FoldsGrow(w.q, step);
    DistinctJoin(w.log, xs);
  }

  lemma FoldsGrow(q: HoleRuns.State, step: HoleRuns.Step)
    requires step.Commit? && HoleRuns.Enabled(q, step) && HoleRuns.Live(q) && HoleRuns.Inv(HoleRuns.Next(q, step))
    ensures HoleRuns.Next(q, step).folds == q.folds + multiset(step.folded)
    ensures forall b :: b in step.folded ==> q.folds[b] == 0
  {
    hide Holes.Guarded, Holes.Normalized, Holes.Advance, Holes.Progress, Holes.Separated, Holes.Settled, HoleRuns.Enabled;
    var after := HoleRuns.Next(q, step).folds;
    forall b | b in step.folded ensures q.folds[b] == 0 {
      assert after[b] <= 1;
    }
  }

  lemma BackfillCounted(w: World, boundary: nat, rows: seq<Block>, sets: Sets)
    requires Inv(w, boundary) && Possible(w, boundary, Backfill(rows, sets))
    ensures Counted(Next(w, boundary, Backfill(rows, sets)))
  {
    hide HoleRuns.Inv, Follows, Numbers, Due, Distinct, Chain.Apply;
    var xs := Additive(rows, boundary, 0);
    NumbersJoin(w.log, xs);
    DistinctJoin(w.log, xs);
  }

  lemma ReorgCounted(w: World, boundary: nat, ancestor: u64, cleared: bool, sets: Sets)
    requires Inv(w, boundary) && Possible(w, boundary, Reorg(ancestor, cleared, sets))
    ensures HoleRuns.Inv(Next(w, boundary, Reorg(ancestor, cleared, sets)).q)
    ensures Counted(Next(w, boundary, Reorg(ancestor, cleared, sets)))
  {
    hide HoleRuns.Inv, Follows, Chain.Apply, HoleRuns.Live;
    HoleRuns.StepKeeps(w.q, HoleRuns.Rewind(ancestor, cleared));
  }

  lemma DropCounted(w: World, boundary: nat)
    requires Inv(w, boundary)
    ensures HoleRuns.Inv(Next(w, boundary, Drop).q) && Counted(Next(w, boundary, Drop))
  {
    hide Follows, Chain.Apply, Holes.Separated, Holes.Settled;
    forall i | 0 <= i < |w.q.holes| ensures Holes.Guards(w.q.holes[i], multiset{}) {
    }
  }

  lemma QueueCounted(w: World, boundary: nat, step: HoleRuns.Step)
    requires Inv(w, boundary) && Possible(w, boundary, Queue(step))
    ensures HoleRuns.Inv(Next(w, boundary, Queue(step)).q) && Counted(Next(w, boundary, Queue(step)))
  {
    hide HoleRuns.Inv, Follows, HoleRuns.Sheltered, Holes.Normalized, HoleRuns.Enabled;
    HoleRuns.StepKeeps(w.q, step);
    QueueFolds(w.q, step);
  }

  lemma QueueFolds(q: HoleRuns.State, step: HoleRuns.Step)
    requires HoleRuns.Enabled(q, step) && !step.Commit? && !step.Rewind?
    ensures HoleRuns.Next(q, step).folds == q.folds
  {
    hide Holes.Normalized;
  }

  lemma StaleCounted(w: World, boundary: nat, rows: seq<Block>, tail: Option<Block>, sets: Sets)
    requires Inv(w, boundary) && Possible(w, boundary, Land(rows, tail, sets)) && !HoleRuns.Live(w.q)
    ensures HoleRuns.Inv(Next(w, boundary, Land(rows, tail, sets)).q)
    ensures Counted(Next(w, boundary, Land(rows, tail, sets))) && Next(w, boundary, Land(rows, tail, sets)).d == w.d
  {
    hide HoleRuns.Inv, Follows, Numbers, Due, Distinct, HoleRuns.Anchored, Batch, HoleRuns.Enabled;
    HoleRuns.StepKeeps(w.q, Commit(w.q.flight.value.h, boundary, rows));
    StaleFolds(w.q, Commit(w.q.flight.value.h, boundary, rows));
  }

  lemma StaleFolds(q: HoleRuns.State, step: HoleRuns.Step)
    requires step.Commit? && HoleRuns.Enabled(q, step) && !HoleRuns.Live(q)
    ensures HoleRuns.Next(q, step).folds == q.folds
  {
    hide Holes.Normalized, Holes.Advance;
  }

  lemma EventKeeps(w: World, boundary: nat, e: Event)
    requires OnTheHour(boundary) && Inv(w, boundary) && Possible(w, boundary, e)
    ensures Inv(Next(w, boundary, e), boundary)
  {
    hide HoleRuns.Inv, Counted, Follows, Due, Chain.Apply, HoleRuns.Next, OnTheHour, Allowed, Numbers, Distinct, HoleRuns.Enabled;
    match e
    case Queue(step) => QueueCounted(w, boundary, step);
    case Land(rows, tail, sets) =>
      if HoleRuns.Live(w.q) {
        var folded := w.q.flight.value.h.folded;
        LandCounted(w, boundary, rows, tail, sets);
        FoldFollows(w.d, boundary, Chain.Fill(rows, tail, folded, sets), w.log, rows, folded);
      } else {
        StaleCounted(w, boundary, rows, tail, sets);
      }
    case Backfill(rows, sets) =>
      BackfillCounted(w, boundary, rows, sets);
      FoldFollows(w.d, boundary, Chain.Backfill(rows, sets), w.log, rows, 0);
    case Rows(step) => RowsCounted(w, boundary, step);
    case Reorg(ancestor, cleared, sets) =>
      ReorgCounted(w, boundary, ancestor, cleared, sets);
      OtherFollows(w.d, boundary, Chain.Rewind(ancestor, cleared, sets), w.log);
    case Drop =>
      DropCounted(w, boundary);
      DropAllowed(w.d, boundary);
      OtherFollows(w.d, boundary, Chain.DropAdditive, w.log);
  }

  lemma DropAllowed(d: Store.Db, boundary: nat)
    ensures Allowed(d, boundary, Chain.DropAdditive)
  {
  }

  lemma RowsCounted(w: World, boundary: nat, step: Chain.Step)
    requires OnTheHour(boundary) && Inv(w, boundary) && Possible(w, boundary, Rows(step))
    ensures Inv(Next(w, boundary, Rows(step)), boundary)
  {
    hide HoleRuns.Inv, Follows, Due, Chain.Apply, OnTheHour, Allowed, Numbers, Distinct;
    OtherFollows(w.d, boundary, step, w.log);
  }

  // ----- whole runs -----

  ghost predicate Legal(w: World, boundary: nat, run: seq<Event>)
    decreases |run|
  {
    run == [] || (Possible(w, boundary, run[0]) && Legal(Next(w, boundary, run[0]), boundary, run[1..]))
  }

  ghost function After(w: World, boundary: nat, run: seq<Event>): World
    requires Legal(w, boundary, run)
    decreases |run|
  {
    if run == [] then w else After(Next(w, boundary, run[0]), boundary, run[1..])
  }

  ghost const START: World := World(HoleRuns.NONE, Chain.EMPTY_DB, [], {})

  lemma {:induction false} RunKeeps(w: World, boundary: nat, run: seq<Event>)
    requires OnTheHour(boundary) && Inv(w, boundary) && Legal(w, boundary, run)
    ensures Inv(After(w, boundary, run), boundary)
    decreases |run|
  {
    hide Inv, Next, Possible, OnTheHour;
    if run != [] {
      EventKeeps(w, boundary, run[0]);
      RunKeeps(Next(w, boundary, run[0]), boundary, run[1..]);
    }
  }

  lemma StartKeeps(boundary: nat)
    ensures Inv(START, boundary)
  {
    HoleRuns.RunKeeps(HoleRuns.NONE, []);
    forall w: Width, s: nat ensures Window([], s, w) == [] && At(Chain.EMPTY_DB, w, s).None? {
    }
  }

  /** After any run, a bucket below the boundary is that of blocks with distinct numbers: the ones folded in its window since
      the last deletion, each once, in whatever order they came. A window none was folded in has no bucket. */
  lemma EachBlockOnce(boundary: nat, run: seq<Event>, w: Width, s: nat)
    requires OnTheHour(boundary) && Legal(START, boundary, run)
    requires Chain.Stored(w) && s % w == 0 && s < boundary
    ensures var t := After(START, boundary, run);
            var xs, b := Window(t.log, s, w), At(t.d, w, s);
            && Distinct(t.log)
            && (b.Some? <==> xs != [])
            && (b.Some? ==> b.value.blocks == |xs| && Means(b.value, xs)
                            && forall ys :: multiset(ys) == multiset(xs) && Distinct(ys) ==> Aside(b.value) == Plain(ys))
  {
    StartKeeps(boundary);
    RunKeeps(START, boundary, run);
    var t := After(START, boundary, run);
    hide HoleRuns.Inv, After, Legal, Window, Plain, Aside, Means, At, Distinct, OnTheHour;
    var xs, b := Window(t.log, s, w), At(t.d, w, s);
    if b.Some? {
      HeldMeans(b.value, xs);
      WindowDistinct(t.log, s, w);
      forall ys | multiset(ys) == multiset(xs) && Distinct(ys) ensures Aside(b.value) == Plain(ys) {
        OrderIrrelevant(xs, ys);
      }
    }
  }

  lemma {:induction false} WindowDistinct(rows: seq<Block>, s: nat, w: nat)
    requires Distinct(rows)
    ensures Distinct(Window(rows, s, w)) && forall x :: x in Window(rows, s, w) ==> x in rows
    decreases |rows|
  {
    if rows != [] {
      var n := |rows| - 1;
      WindowDistinct(rows[..n], s, w);
      var front := Window(rows[..n], s, w);
      forall i | 0 <= i < |front| ensures front[i].number != rows[n].number {
        assert front[i] in rows[..n];
        var j :| 0 <= j < n && rows[..n][j] == front[i];
        assert rows[j].number != rows[n].number;
      }
      assert forall x :: x in rows[..n] ==> x in rows;
    }
  }
}
