/** The backfill cursor of internal/collector/backfill.go: runs that each replay forward and are taken in
    downward order, seeded windows included, committed batch by batch with the cursor. */
module Backfill {
  import opened Words

  const MIN_BACKFILL_BATCH: nat := 5

  /** The stored cursor. [end, top) is reconstructed; an active run covers [segStart, end) from `next` on. */
  datatype Cursor = Cursor(end: nat, top: nat, depthStart: nat, segStart: nat, next: nat,
                           skipFirst: bool, active: bool, done: bool)

  const FRESH := Cursor(0, 0, 0, 0, 0, false, false, false)

  /** What a step finds outside the cursor: the constraint sets' effective blocks in order, the block a
      sampled legacy state may be replayed from, the seeding window (0 without an archive) and whether
      the sample fits, the batch size and the spare budget. */
  datatype World = World(sets: seq<nat>, replayFrom: Option<nat>, window: nat, seedable: bool, batchSize: nat, available: int)

  // ----- choosing a run -----

  /** The last set in force before the unfilled top. */
  function LastBelow(sets: seq<nat>, end: nat): (r: Option<nat>)
    ensures r.Some? ==> r.value < end && r.value in sets
    ensures r.None? <==> forall i :: 0 <= i < |sets| ==> sets[i] >= end
    decreases |sets|
  {
    if sets == [] then None
    else if sets[|sets| - 1] < end then Some(sets[|sets| - 1])
    else LastBelow(sets[..|sets| - 1], end)
  }

  function SegmentFloor(w: World, end: nat): Option<nat> {
    match LastBelow(w.sets, end)
    case Some(effective) => Some(Max(effective, 1))
    case None => if w.replayFrom.Some? && end > w.replayFrom.value then w.replayFrom else None
  }

  /** The first block of a window of the configured size, or the depth if that is nearer. */
  function WindowFirst(c: Cursor, window: nat): nat {
    if Max(c.end - c.depthStart, 0) > window then c.end - window else c.depthStart
  }

  /** A run at the segment floor, moved up to a window whose entering state the archive supplies. */
  function Seeded(c: Cursor, w: World): Cursor {
    var first := WindowFirst(c, w.window);
    if w.window == 0 || first < c.segStart + 2 || !w.seedable then c
    else c.(segStart := first, next := first - 1, skipFirst := true)
  }

  function Started(c: Cursor, w: World, floor: nat): Cursor {
    Seeded(c.(active := true, segStart := floor, next := floor, skipFirst := false), w)
  }

  // ----- one batch -----

  function BatchSize(w: World, remaining: nat): nat {
    var n := Min(w.batchSize, remaining);
    var spare := Max(w.available, 0) / 2;
    if spare < n then Max(spare, Min(MIN_BACKFILL_BATCH, remaining)) else n
  }

  function Run(from: nat, n: nat): (r: seq<nat>)
    ensures |r| == n && forall i :: 0 <= i < n ==> r[i] == from + i
  {
    seq(n, i => from + i)
  }

  /** The rows a batch commits: the block below a seeded window is replayed, not written. */
  function Rows(c: Cursor, n: nat): seq<nat> {
    if c.skipFirst && n > 0 then Run(c.next, n)[1..] else Run(c.next, n)
  }

  function Advanced(c: Cursor, n: nat): Cursor {
    var d := c.(next := c.next + n, skipFirst := c.skipFirst && n == 0);
    if d.next >= d.end then d.(active := false, end := d.segStart) else d
  }

  // ----- the steps -----

  /** A range recorded as missing, both ends included. */
  datatype Span = Span(from: nat, to: nat)

  /** The stored cursor, what was written so far, and the ranges recorded instead. */
  datatype State = State(c: Cursor, written: multiset<nat>, held: seq<Span>)

  /** stopWithHole: everything down to the depth is recorded as one range, and the descent is over. */
  function Stopped(s: State): State
    requires s.c.end > 0
  {
    s.(c := s.c.(done := true, active := false, end := s.c.depthStart), held := s.held + [Span(s.c.depthStart, s.c.end - 1)])
  }

  /** startSegment at a cursor with a position: done at the depth, a run chosen, or a stop where nothing below
      is known. */
  function Chosen(s: State, w: World): State
    requires s.c.end > 0
  {
    if s.c.end <= s.c.depthStart then s.(c := s.c.(done := true))
    else
      match SegmentFloor(w, s.c.end)
      case Some(floor) => s.(c := Started(s.c, w, floor))
      case None => Stopped(s)
  }

  function Batched(s: State, n: nat): State { State(Advanced(s.c, n), s.written + multiset(Rows(s.c, n)), s.held) }

  /** resolveDepth: the floor moves, and a finished descent above a lower floor is resumed. */
  function Refloored(s: State, floor: nat): State {
    s.(c := s.c.(depthStart := floor, done := s.c.done && s.c.end <= floor))
  }

  function Opened(s: State, oldest: nat): State { s.(c := s.c.(end := oldest, top := oldest)) }

  /** What a step asks of the world: batches are not empty, and a sampled state is at a real block. */
  predicate Usable(w: World) { w.batchSize >= 1 && (w.replayFrom.Some? ==> w.replayFrom.value >= 1) }

  predicate CanChoose(c: Cursor) { !c.active && !c.done && c.end > 0 && c.depthStart >= 1 }

  /** A run stops with a hole at its first batch, if at all: versions only rise, so one whose first blocks the
      model prices is priced to its end. */
  predicate CanStop(c: Cursor) { c.active && c.next <= c.segStart && 1 <= c.depthStart < c.end }

  /** The floor of a run in flight stays below its end. */
  predicate CanRefloor(c: Cursor, floor: nat) { floor >= 1 && (c.active ==> floor < c.end) }

  predicate CanOpen(c: Cursor, oldest: nat) { c.end == 0 && !c.active && oldest > 0 }

  class Descent {
    var c: Cursor
    var held: seq<Span>
    ghost var written: multiset<nat>

    ghost function Value(): State reads this { State(c, written, held) }

    ghost predicate Valid() reads this { Covers(Value()) }

    constructor ()
      ensures Valid() && Value() == State(FRESH, multiset{}, [])
    {
      c, written, held := FRESH, multiset{}, [];
    }

    method ChooseSet(sets: seq<nat>, end: nat) returns (chosen: Option<nat>)
      ensures chosen == LastBelow(sets, end)
    {
      chosen := None;
      var i := 0;
      while i < |sets|
        invariant 0 <= i <= |sets| && chosen == LastBelow(sets[..i], end)
      {
        assert sets[..i + 1][..i] == sets[..i];
        if sets[i] < end { chosen := Some(sets[i]); }
        i := i + 1;
      }
      assert sets[..i] == sets;
    }

    method StopWithHole(ok: bool)
      requires Valid() && (CanStop(c) || (CanChoose(c) && c.depthStart < c.end))
      modifies this
      ensures Valid() && Value() == if ok then Stopped(old(Value())) else old(Value())
    {
      StopCovers(Value());
      if !ok { return; }
      held := held + [Span(c.depthStart, c.end - 1)];
      c := c.(done := true, active := false, end := c.depthStart);
    }

    /** `ok` is whether the commit went through; if not, the stored cursor is as it was. */
    method StartSegment(w: World, ok: bool)
      requires Valid() && CanChoose(c) && Usable(w)
      modifies this
      ensures Valid() && Value() == if ok then Chosen(old(Value()), w) else old(Value())
    {
      ChooseCovers(Value(), w);
      hide Covers;
      if c.end <= c.depthStart {
        if ok { c := c.(done := true); }
        return;
      }
      var chosen := ChooseSet(w.sets, c.end);
      var d := c;
      if chosen.Some? {
        d := d.(active := true, segStart := Max(chosen.value, 1), next := Max(chosen.value, 1), skipFirst := false);
      } else if w.replayFrom.Some? && c.end > w.replayFrom.value {
        d := d.(active := true, segStart := w.replayFrom.value, next := w.replayFrom.value, skipFirst := false);
      } else {
        StopWithHole(ok);
        return;
      }
      d := SeedWindow(d, w);
      if ok { c := d; }
    }

    method SeedWindow(d: Cursor, w: World) returns (r: Cursor)
      ensures r == Seeded(d, w)
    {
      r := d;
      if w.window == 0 { return; }
      var floor, first := d.segStart, d.depthStart;
      if Max(d.end - d.depthStart, 0) > w.window { first := d.end - w.window; }
      if first < floor + 2 || !w.seedable { return; }
      r := d.(segStart := first, next := first - 1, skipFirst := true);
    }

    method Numbers(from: nat, n: nat) returns (r: seq<nat>)
      ensures r == Run(from, n)
    {
      r := [];
      var i := 0;
      while i < n
        invariant 0 <= i <= n && r == Run(from, i)
      {
        r := r + [from + i];
        i := i + 1;
      }
    }

    method SizeBatch(w: World, remaining: nat) returns (n: nat)
      requires w.batchSize >= 1 && remaining >= 1
      ensures n == BatchSize(w, remaining) && 1 <= n <= remaining
    {
      n := Min(w.batchSize, remaining);
      var spare := Max(w.available, 0) / 2;
      if spare < n { n := Max(spare, Min(MIN_BACKFILL_BATCH, remaining)); }
    }

    method Replay(n: nat) returns (rows: seq<nat>, d: Cursor)
      ensures rows == Rows(c, n) && d == Advanced(c, n)
    {
      rows := Numbers(c.next, n);
      d := c;
      if d.skipFirst && |rows| > 0 {
        rows := rows[1..];
        d := d.(skipFirst := false);
      }
      d := d.(next := d.next + n);
      if d.next >= d.end { d := d.(active := false, end := d.segStart); }
    }

    /** One header batch and its commit. */
    method Batch(w: World, ok: bool) returns (rows: seq<nat>)
      requires Valid() && c.active && Usable(w)
      modifies this
      ensures Valid()
      ensures var n := BatchSize(w, old(c).end - old(c).next);
              && 1 <= n <= old(c).end - old(c).next
              && rows == Rows(old(c), n)
              && Value() == if ok then Batched(old(Value()), n) else old(Value())
    {
      var n := SizeBatch(w, c.end - c.next);
      AdvanceCovers(Value(), n);
      hide Covers, Rows, BatchSize;
      var d;
      rows, d := Replay(n);
      if ok {
        c := d;
        written := written + multiset(rows);
      }
    }

    /** A cursor with no position starts at the oldest stored block. */
    method Open(oldest: nat)
      requires Valid() && CanOpen(c, oldest)
      modifies this
      ensures Valid() && Value() == Opened(old(Value()), oldest)
    {
      OpenCovers(Value(), oldest);
      c := c.(end := oldest, top := oldest);
    }

    method ResolveDepth(floor: nat)
      requires Valid() && CanRefloor(c, floor)
      modifies this
      ensures Valid() && Value() == Refloored(old(Value()), floor)
    {
      RefloorCovers(Value(), floor);
      hide Covers;
      c := c.(depthStart := floor);
      if c.done && c.end > floor { c := c.(done := false); }
    }
  }

  // ----- what every step keeps -----

  ghost predicate Reached(c: Cursor, b: nat) { c.end <= b < c.top || (c.active && c.segStart <= b < c.next) }

  ghost predicate Held(held: seq<Span>, b: nat) { exists i :: 0 <= i < |held| && held[i].from <= b <= held[i].to }

  ghost predicate Shape(c: Cursor) {
    && (c.end == 0 ==> !c.active && c.top == 0)
    && c.end <= c.top
    && (c.active ==> !c.done && 1 <= c.segStart < c.end && c.next < c.end)
    && (c.active ==> if c.skipFirst then c.next + 1 == c.segStart else c.segStart <= c.next)
  }

  /** Every block of [end, top), and of the active run so far, was written exactly once or is in a recorded
      range and was not written; no other block was written. */
  ghost predicate Covers(s: State) {
    && Shape(s.c)
    && (forall i :: 0 <= i < |s.held| ==> s.c.end <= s.held[i].from && s.held[i].to < s.c.top)
    && (forall b: nat :: s.written[b] == if Reached(s.c, b) && !Held(s.held, b) then 1 else 0)
  }

  lemma SeedShape(c: Cursor, w: World, floor: nat)
    requires Shape(c) && !c.active && !c.done && c.end > c.depthStart >= 1 && 1 <= floor < c.end
    ensures Shape(Started(c, w, floor)) && Started(c, w, floor).end == c.end && Started(c, w, floor).top == c.top
    ensures var d := Started(c, w, floor); d.active && floor <= d.segStart && d.next <= d.segStart
  {
  }

  lemma ChooseCovers(s: State, w: World)
    requires Covers(s) && CanChoose(s.c) && Usable(w)
    ensures Covers(Chosen(s, w))
  {
    if s.c.end > s.c.depthStart {
      match SegmentFloor(w, s.c.end)
      case Some(floor) =>
        SeedShape(s.c, w, floor);
        hide Held;
        assert forall b: nat :: Reached(s.c, b) == Reached(Started(s.c, w, floor), b);
      case None => StopCovers(s);
    }
  }

  lemma StopCovers(s: State)
    requires Covers(s) && (CanStop(s.c) || (CanChoose(s.c) && s.c.depthStart < s.c.end))
    ensures Covers(Stopped(s))
  {
    var t := Stopped(s);
    forall b: nat ensures t.written[b] == if Reached(t.c, b) && !Held(t.held, b) then 1 else 0 {
      HeldMore(s.held, Span(s.c.depthStart, s.c.end - 1), b);
    }
  }

  lemma HeldMore(held: seq<Span>, x: Span, b: nat)
    ensures Held(held + [x], b) <==> Held(held, b) || x.from <= b <= x.to
  {
    var all := held + [x];
    if Held(held, b) {
      var i :| 0 <= i < |held| && held[i].from <= b <= held[i].to;
      assert all[i] == held[i];
    }
    assert all[|held|] == x;
  }

  lemma OpenCovers(s: State, oldest: nat)
    requires Covers(s) && CanOpen(s.c, oldest)
    ensures Covers(Opened(s, oldest))
  {
  }

  lemma RefloorCovers(s: State, floor: nat)
    requires Covers(s) && CanRefloor(s.c, floor)
    ensures Covers(Refloored(s, floor))
  {
    hide Held;
    assert forall b: nat :: Reached(s.c, b) == Reached(Refloored(s, floor).c, b);
  }

  lemma {:induction false} RunCount(s: seq<nat>, from: nat, b: nat)
    requires forall i :: 0 <= i < |s| ==> s[i] == from + i
    ensures multiset(s)[b] == if from <= b < from + |s| then 1 else 0
    decreases |s|
  {
    if s != [] {
      var front := s[..|s| - 1];
      RunCount(front, from, b);
      assert s == front + [s[|s| - 1]];
    }
  }

  lemma AdvanceCovers(s: State, n: nat)
    requires Covers(s) && s.c.active && 1 <= n <= s.c.end - s.c.next
    ensures Covers(Batched(s, n))
  {
    var t, c := Batched(s, n), s.c;
    var rows := Rows(c, n);
    var from := if c.skipFirst then c.next + 1 else c.next;
    assert |rows| == c.next + n - from;
    forall b: nat ensures t.written[b] == if Reached(t.c, b) && !Held(t.held, b) then 1 else 0 {
      RunCount(rows, from, b);
      assert Held(s.held, b) ==> c.end <= b;
    }
  }

  // ----- every history -----

  /** One step of the collector; `ok` is whether its commit went through. A crash before the commit is a step
      that did not. */
  datatype Step =
    | Open(oldest: nat)
    | Choose(w: World, ok: bool)
    | Batch(w: World, ok: bool)
    | Stop(ok: bool)
    | Refloor(floor: nat, ok: bool)

  predicate Enabled(c: Cursor, step: Step) {
    match step
    case Open(oldest) => CanOpen(c, oldest)
    case Choose(w, _) => CanChoose(c) && Usable(w)
    case Batch(w, _) => c.active && c.next < c.end && Usable(w)
    case Stop(_) => CanStop(c)
    case Refloor(floor, _) => CanRefloor(c, floor)
  }

  function Next(s: State, step: Step): State
    requires Enabled(s.c, step)
  {
    match step
    case Open(oldest) => Opened(s, oldest)
    case Choose(w, ok) => if ok then Chosen(s, w) else s
    case Batch(w, ok) => if ok then Batched(s, BatchSize(w, s.c.end - s.c.next)) else s
    case Stop(ok) => if ok then Stopped(s) else s
    case Refloor(floor, ok) => if ok then Refloored(s, floor) else s
  }

  lemma BatchInRange(w: World, remaining: nat)
    requires Usable(w) && remaining >= 1
    ensures 1 <= BatchSize(w, remaining) <= remaining
  {
  }

  lemma StepCovers(s: State, step: Step)
    requires Covers(s) && Enabled(s.c, step)
    ensures Covers(Next(s, step))
  {
    hide Covers;
    match step
    case Open(oldest) => OpenCovers(s, oldest);
    case Choose(w, _) => ChooseCovers(s, w);
    case Batch(w, _) =>
      BatchInRange(w, s.c.end - s.c.next);
      AdvanceCovers(s, BatchSize(w, s.c.end - s.c.next));
    case Stop(_) => StopCovers(s);
    case Refloor(floor, _) => RefloorCovers(s, floor);
  }

  predicate Legal(s: State, run: seq<Step>)
    decreases |run|
  {
    run == [] || (Enabled(s.c, run[0]) && Legal(Next(s, run[0]), run[1..]))
  }

  function After(s: State, run: seq<Step>): State
    requires Legal(s, run)
    decreases |run|
  {
    if run == [] then s else After(Next(s, run[0]), run[1..])
  }

  lemma {:induction false} RunCovers(s: State, run: seq<Step>)
    requires Covers(s) && Legal(s, run)
    ensures Covers(After(s, run))
    decreases |run|
  {
    hide Covers, Next, Enabled;
    if run != [] {
      StepCovers(s, run[0]);
      RunCovers(Next(s, run[0]), run[1..]);
    }
  }

  const NOTHING := State(FRESH, multiset{}, [])

  /** After any history of runs, batches, failed commits, moved floors and stops: a block from the reached end up
      to the top was written exactly once or is recorded as missing and was not, a block of the run in
      progress was written exactly once up to its cursor, and no other block was written. */
  lemma EveryBlockOnce(run: seq<Step>, b: nat)
    requires Legal(NOTHING, run)
    ensures var s := After(NOTHING, run);
            && s.written[b] <= 1
            && (s.c.end <= b < s.c.top ==> (s.written[b] == 1 <==> !Held(s.held, b)))
            && (s.c.active && s.c.segStart <= b < s.c.next ==> s.written[b] == 1)
            && (b >= s.c.top ==> s.written[b] == 0)
            && (b < s.c.end && !(s.c.active && s.c.segStart <= b < s.c.next) ==> s.written[b] == 0)
  {
    assert Covers(NOTHING);
    RunCovers(NOTHING, run);
    hide Legal, After, Held;
    var s := After(NOTHING, run);
    if Held(s.held, b) { HeldAbove(s, b); }
  }

  lemma HeldAbove(s: State, b: nat)
    requires Covers(s) && Held(s.held, b)
    ensures s.c.end <= b < s.c.top
  {
  }

  // ----- the descent ends -----

  /** What falls with every committed step: the unfilled top, then the blocks left in the run. */
  function Left(c: Cursor): nat { if !c.active then c.end + 2 else Max(c.end - c.next, 0) }

  /** A descent under way at a floor. */
  ghost predicate Underway(c: Cursor, floor: nat, top: nat) {
    && c.end > 0 && c.depthStart == floor >= 1 && c.top == top
    && (c.active ==> floor < c.end)
    && (c.done ==> !c.active && c.end <= floor)
  }

  ghost predicate Fell(c: Cursor, d: Cursor) {
    d.end < c.end || (d.end == c.end && (Left(d) < Left(c) || (Left(d) == Left(c) && d.done && !c.done)))
  }

  lemma ChooseFalls(s: State, w: World)
    requires Covers(s) && CanChoose(s.c) && Usable(w) && Underway(s.c, s.c.depthStart, s.c.top)
    ensures Fell(s.c, Chosen(s, w).c) && Underway(Chosen(s, w).c, s.c.depthStart, s.c.top)
  {
    if s.c.end > s.c.depthStart {
      match SegmentFloor(w, s.c.end)
      case Some(floor) => SeedShape(s.c, w, floor); SeedDepth(s.c, w, floor);
      case None =>
    }
  }

  lemma SeedDepth(c: Cursor, w: World, floor: nat)
    ensures Started(c, w, floor).depthStart == c.depthStart && !Started(c, w, floor).done == !c.done
  {
  }

  lemma BatchFalls(s: State, n: nat)
    requires Covers(s) && s.c.active && 1 <= n <= s.c.end - s.c.next && Underway(s.c, s.c.depthStart, s.c.top)
    ensures Fell(s.c, Advanced(s.c, n)) && Underway(Advanced(s.c, n), s.c.depthStart, s.c.top)
    ensures !Advanced(s.c, n).active ==> Advanced(s.c, n).end == s.c.segStart < s.c.end
  {
  }

  /** The descent at a fixed floor from wherever it was left, whatever each step finds: it ends at or below the
      floor, and every block from there to the top was written exactly once or is recorded as missing. */
  method Descend(d: Descent, world: nat -> World, unsupported: nat -> bool)
    requires d.Valid() && Underway(d.c, d.c.depthStart, d.c.top)
    requires forall k :: Usable(world(k))
    modifies d
    ensures d.Valid() && d.c.done && !d.c.active && d.c.end <= d.c.depthStart
    ensures d.c.depthStart == old(d.c.depthStart) && d.c.top == old(d.c.top)
    ensures forall b: nat :: d.c.end <= b < d.c.top ==> (d.written[b] == 1 <==> !Held(d.held, b))
    ensures forall b: nat :: d.written[b] <= 1
  {
    hide Covers, Chosen, Stopped, Batched, BatchSize;
    var k := 0;
    while !d.c.done
      invariant d.Valid() && Underway(d.c, old(d.c.depthStart), old(d.c.top))
      decreases d.c.end, Left(d.c), !d.c.done
    {
      ghost var was := d.Value();
      if d.c.active {
        if unsupported(k) && d.c.next <= d.c.segStart {
          StopFalls(was);
          d.StopWithHole(true);
        } else {
          var rows := d.Batch(world(k), true);
          BatchFalls(was, BatchSize(world(k), was.c.end - was.c.next));
          BatchedCursor(was, BatchSize(world(k), was.c.end - was.c.next));
        }
      } else {
        ChooseFalls(was, world(k));
        d.StartSegment(world(k), true);
      }
      assert Fell(was.c, d.c);
      k := k + 1;
    }
    CoveredAtEnd(d.Value());
  }

  lemma StopFalls(s: State)
    requires s.c.end > 0 && s.c.depthStart < s.c.end && s.c.depthStart >= 1
    ensures Fell(s.c, Stopped(s).c) && Underway(Stopped(s).c, s.c.depthStart, s.c.top)
  {
  }

  lemma BatchedCursor(s: State, n: nat)
    ensures Batched(s, n).c == Advanced(s.c, n)
  {
  }

  lemma CoveredAtEnd(s: State)
    requires Covers(s)
    ensures forall b: nat :: s.c.end <= b < s.c.top ==> (s.written[b] == 1 <==> !Held(s.held, b))
    ensures forall b: nat :: s.written[b] <= 1
  {
    hide Held;
  }
}
