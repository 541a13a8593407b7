/** Which run the backfill takes, where a window starts it, how large a batch is, and the only ways a range is recorded as
    missing instead (internal/collector/backfill.go). */
module BackfillMeaning {
  import opened Words
  import opened Backfill

  // ----- the run chosen -----

  /** The set in force below the end: the last of the list that starts before it. */
  ghost predicate InForce(sets: seq<nat>, end: nat, i: nat) {
    i < |sets| && sets[i] < end && forall j :: i < j < |sets| ==> sets[j] >= end
  }

  ghost predicate NoneInForce(sets: seq<nat>, end: nat) { forall i :: 0 <= i < |sets| ==> sets[i] >= end }

  lemma {:induction false} LastBelowExactly(sets: seq<nat>, end: nat) returns (i: nat)
    requires !NoneInForce(sets, end)
    ensures InForce(sets, end, i) && LastBelow(sets, end) == Some(sets[i])
    decreases |sets|
  {
    var n := |sets| - 1;
    if sets[n] < end {
      i := n;
    } else {
      var j :| 0 <= j < |sets| && sets[j] < end;
      assert sets[..n][j] < end;
      i := LastBelowExactly(sets[..n], end);
    }
  }

  lemma InForceOnce(sets: seq<nat>, end: nat, i: nat, j: nat)
    requires InForce(sets, end, i) && InForce(sets, end, j)
    ensures i == j
  {
  }

  /** A sampled state that describes blocks below the end. */
  ghost predicate Sampled(w: World, end: nat) { w.replayFrom.Some? && w.replayFrom.value < end }

  /** Nothing independently known describes the pricer before the end. */
  ghost predicate NothingKnown(w: World, end: nat) { NoneInForce(w.sets, end) && !Sampled(w, end) }

  /** The floor of a run: the first block of the set in force (block 1 for one at genesis); failing that the block a sampled
      state is replayed from; none exactly when nothing is known. */
  lemma FloorExactly(w: World, end: nat)
    ensures SegmentFloor(w, end).None? <==> NothingKnown(w, end)
    ensures NoneInForce(w.sets, end) && Sampled(w, end) ==> SegmentFloor(w, end) == w.replayFrom
    ensures forall i: nat :: InForce(w.sets, end, i) ==>
              SegmentFloor(w, end) == Some(if w.sets[i] == 0 then 1 else w.sets[i])
  {
    hide LastBelow;
    if !NoneInForce(w.sets, end) {
      var k := LastBelowExactly(w.sets, end);
      forall i: nat | InForce(w.sets, end, i) ensures i == k { InForceOnce(w.sets, end, i, k); }
    }
  }

  // ----- the window -----

  /** Where a window of a run starts: its size below the end, or at the depth when that is nearer. */
  ghost predicate Window(c: Cursor, w: World, first: nat) {
    && c.depthStart <= first && (c.end >= c.depthStart ==> first <= c.end) && (c.end < c.depthStart ==> first == c.depthStart)
    && (c.end >= c.depthStart ==> c.end - first <= w.window)
    && (first == c.depthStart || first + w.window == c.end)
  }

  /** A run starts at its floor, or at the window when an archive can seed it and it lies at least two blocks above the floor;
      then the block below is replayed first and not written. */
  lemma StartedExactly(c: Cursor, w: World, floor: nat)
    ensures exists first: nat :: Window(c, w, first) &&
              Started(c, w, floor) ==
                if w.window > 0 && w.seedable && first >= floor + 2
                then c.(active := true, segStart := first, next := first - 1, skipFirst := true)
                else c.(active := true, segStart := floor, next := floor, skipFirst := false)
  {
    assert Window(c, w, WindowFirst(c, w.window));
  }

  // ----- the batch -----

  /** A batch is as large as configured unless less is left or half the spare budget is smaller; it never falls below five
      blocks, or what is left, for want of budget. */
  lemma BatchExactly(w: World, remaining: nat)
    requires Usable(w) && remaining >= 1
    ensures var n, least := BatchSize(w, remaining), if remaining < 5 then remaining else 5;
            && n <= remaining
            && (n <= w.batchSize || n == least)
            && (2 * n <= w.available || n == least || n == w.batchSize || n == remaining)
            && (w.available >= 2 * w.batchSize || w.available >= 2 * remaining ==>
                  n == if w.batchSize < remaining then w.batchSize else remaining)
            && (w.available < 2 * w.batchSize && w.available < 2 * remaining ==>
                  n == if w.available >= 2 * least then w.available / 2 else least)
  {
  }

  /** A batch writes consecutive blocks from the cursor on, without the one replayed only to seed, and moves the cursor past
      them; the run that reaches its end hands its start on as the new end. */
  lemma BatchWrites(s: State, n: nat)
    requires Covers(s) && s.c.active && 1 <= n <= s.c.end - s.c.next
    ensures var t := Batched(s, n);
            && (forall b: nat :: t.written[b] == s.written[b] + if s.c.next <= b < s.c.next + n && !(s.c.skipFirst && b == s.c.next) then 1 else 0)
            && t.held == s.held && t.c.next == s.c.next + n && !t.c.skipFirst
            && (s.c.next + n < s.c.end ==> t.c.active && t.c.end == s.c.end)
            && (s.c.next + n == s.c.end ==> !t.c.active && t.c.end == s.c.segStart)
  {
    var rows := Rows(s.c, n);
    var from := if s.c.skipFirst then s.c.next + 1 else s.c.next;
    assert |rows| == s.c.next + n - from;
    var t := Batched(s, n);
    forall b: nat ensures t.written[b] == s.written[b] + if from <= b < s.c.next + n then 1 else 0 {
      RunCount(rows, from, b);
    }
  }

  // ----- what is recorded as missing -----

  /** A step that gives up what is left: a run whose first blocks no model prices, or a choice with nothing known. */
  ghost predicate GivesUp(c: Cursor, step: Step) {
    || step == Stop(true)
    || (step.Choose? && step.ok && c.end > c.depthStart && NothingKnown(step.w, c.end))
  }

  /** A range is recorded exactly by a step that gives up, it is everything down to the depth, and the descent is over. No
      other step records one, and a choice with anything known starts a run. */
  lemma RecordsExactlyWhen(s: State, step: Step)
    requires Enabled(s.c, step) && Covers(s)
    ensures var t := Next(s, step);
            && (GivesUp(s.c, step) ==> t.held == s.held + [Span(s.c.depthStart, s.c.end - 1)] && t.c.done && t.c.end == s.c.depthStart)
            && (!GivesUp(s.c, step) ==> t.held == s.held)
            && (step.Choose? && step.ok && s.c.end > s.c.depthStart && !NothingKnown(step.w, s.c.end) ==> t.c.active && !t.c.done)
            && (step.Choose? && step.ok && s.c.end <= s.c.depthStart ==> t.c == s.c.(done := true))
  {
    hide SegmentFloor, Covers, NothingKnown, BatchSize, WindowFirst;
    if step.Choose? { FloorExactly(step.w, s.c.end); }
  }

  /** A floor that moves below what a finished descent reached takes it up again; any other leaves it as it was. */
  lemma RefloorResumes(s: State, floor: nat)
    ensures var t := Refloored(s, floor);
            && t == s.(c := t.c) && t.c == s.c.(depthStart := floor, done := t.c.done)
            && (s.c.done && floor < s.c.end ==> !t.c.done)
            && (!(s.c.done && floor < s.c.end) ==> t.c.done == s.c.done)
  {
  }

  /** Over any history, a block below the top and at or above the reached end was not written only if some step gave it up. */
  lemma {:induction false} MissingWasGivenUp(s: State, run: seq<Step>, b: nat)
    requires Covers(s) && Legal(s, run)
    requires Held(After(s, run).held, b) && !Held(s.held, b)
    ensures exists i: nat :: i < |run| && Legal(s, run[..i]) && GivesUp(After(s, run[..i]).c, run[i])
                             && After(s, run[..i]).c.depthStart <= b < After(s, run[..i]).c.end
    decreases |run|
  {
    hide Covers, Next, Enabled, GivesUp, Held;
    if run != [] {
      var t := Next(s, run[0]);
      StepCovers(s, run[0]);
      RecordsExactlyWhen(s, run[0]);
      if Held(t.held, b) {
        assert GivesUp(s.c, run[0]);
        GivesUpAbove(s.c, run[0]);
        HeldMore(s.held, Span(s.c.depthStart, s.c.end - 1), b);
        GaveUpFirst(s, run);
      } else {
        MissingWasGivenUp(t, run[1..], b);
        var i: nat :| i < |run[1..]| && Legal(t, run[1..][..i]) && GivesUp(After(t, run[1..][..i]).c, run[1..][i])
                      && After(t, run[1..][..i]).c.depthStart <= b < After(t, run[1..][..i]).c.end;
        assert run[..i + 1][0] == run[0] && run[..i + 1][1..] == run[1..][..i];
        assert run[i + 1] == run[1..][i];
      }
    }
  }

  lemma GivesUpAbove(c: Cursor, step: Step)
    requires Enabled(c, step) && GivesUp(c, step)
    ensures c.depthStart < c.end
  {
  }

  lemma GaveUpFirst(s: State, run: seq<Step>)
    requires run != []
    ensures Legal(s, run[..0]) && After(s, run[..0]) == s
  {
  }
}
