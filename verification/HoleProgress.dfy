/** What becomes of missing blocks (internal/collector/fill.go, collector.go, tick.go): a block stays in the queue
    until a live commit finishes the range it is in, and by then every block of that range was committed. */
module HoleProgress {
  import opened Words
  import opened Holes
  import opened HoleRuns

  // ----- one commit, exactly -----

  /** The commit reaches the end of the entry: the entry goes. */
  predicate Finishes(cur: Hole, h: Hole, n: nat) { h.Start() + n > h.to && cur.to == h.to }

  /** The entry that stays: its cursor is past the batch, its watermark is not below it, its range is as it was, and its reason
      is that of the captured copy. */
  ghost predicate Progressed(cur: Hole, h: Hole, n: nat, after: Hole) {
    && after.from == cur.from && after.to == cur.to
    && after.next == h.Start() + n
    && after.folded >= cur.folded && after.folded >= h.folded && after.folded >= h.Start() + n
    && (after.folded == cur.folded || after.folded == h.folded || after.folded == h.Start() + n)
    && after.reason == h.reason && after.life == Pending
  }

  lemma {:induction false} AdvanceConcat(a: seq<Hole>, b: seq<Hole>, p: Hole, done: bool)
    ensures Advance(a + b, p, done) == Advance(a, p, done) + Advance(b, p, done)
    decreases |b|
  {
    if b == [] {
      assert a + b == a && Advance(a, p, done) + [] == Advance(a, p, done);
    } else {
      assert (a + b)[..|a + b| - 1] == a + b[..|b| - 1];
      AdvanceConcat(a, b[..|b| - 1], p, done);
    }
  }

  /** Only the entry of the captured hole changes; it goes when finished and moves on otherwise. */
  lemma CommitExactly(hs: seq<Hole>, h: Hole, n: nat, i: nat)
    requires Separated(hs) && i < |hs| && Matches(hs[i], h)
    ensures var out := Advance(hs, Progress(h, n), h.Start() + n > h.to);
            if Finishes(hs[i], h, n) then out == hs[..i] + hs[i + 1..]
            else |out| == |hs| && out[..i] == hs[..i] && out[i + 1..] == hs[i + 1..] && Progressed(hs[i], h, n, out[i])
  {
    hide Advance, Separated, Progressed, Finishes, Progress;
    var p, done := Progress(h, n), h.Start() + n > h.to;
    ProgressRange(h, n);
    var before, cur, rest := hs[..i], hs[i], hs[i + 1..];
    assert hs == before + [cur] + rest;
    AdvanceConcat(before + [cur], rest, p, done);
    AdvanceConcat(before, [cur], p, done);
    NoneElse(hs, h, i, before, rest);
    AdvanceNothing(before, p, done);
    AdvanceNothing(rest, p, done);
    AdvanceAlone(cur, h, n);
    var one := Advance([cur], p, done);
    assert Advance(hs, p, done) == before + one + rest;
  }

  lemma NoneElse(hs: seq<Hole>, h: Hole, i: nat, before: seq<Hole>, rest: seq<Hole>)
    requires Separated(hs) && i < |hs| && Matches(hs[i], h) && before == hs[..i] && rest == hs[i + 1..]
    ensures forall j :: 0 <= j < |before| ==> before[j].from != h.from
    ensures forall j :: 0 <= j < |rest| ==> rest[j].from != h.from
  {
    forall j | 0 <= j < |rest| ensures rest[j].from != h.from { OtherStart(hs, i, i + 1 + j); }
  }

  lemma OtherStart(hs: seq<Hole>, i: nat, j: nat)
    requires Separated(hs) && i < |hs| && j < |hs| && i != j
    ensures hs[i].from != hs[j].from
  {
  }

  lemma AdvanceAlone(cur: Hole, h: Hole, n: nat)
    requires Matches(cur, h)
    ensures var out := Advance([cur], Progress(h, n), h.Start() + n > h.to);
            if Finishes(cur, h, n) then out == [] else |out| == 1 && Progressed(cur, h, n, out[0])
  {
    assert [cur][..0] == [];
  }

  // ----- coverage, step by step -----

  /** A step takes a block out of the queue: a live commit finishes the entry it is in. */
  ghost predicate Passes(s: State, step: Step, x: nat) {
    && step.Commit? && Live(s)
    && exists i :: 0 <= i < |s.holes| && s.holes[i].Has(x) && Matches(s.holes[i], s.flight.value.h)
                   && Finishes(s.holes[i], s.flight.value.h, step.n)
  }

  lemma CommitCovers(s: State, n: nat, folded: set<nat>, x: nat)
    requires Separated(s.holes) && Live(s) && Enabled(s, Commit(n, folded))
    ensures Covered(Next(s, Commit(n, folded)).holes, x) <==> Covered(s.holes, x) && !Passes(s, Commit(n, folded), x)
  {
    hide Covered, Normalized, Advance, Progress, Finishes;
    var h := s.flight.value.h;
    var p, done := Progress(h, n), h.Start() + n > h.to;
    LiveCommit(s, n, folded);
    NormalizeKeeps(Advance(s.holes, p, done), multiset{}, x);
    AdvanceCovers(s.holes, h, n, x);
    PassesWhen(s, n, folded, x);
  }

  ghost predicate PassedIn(hs: seq<Hole>, h: Hole, n: nat, x: nat) {
    exists i :: 0 <= i < |hs| && hs[i].Has(x) && Matches(hs[i], h) && Finishes(hs[i], h, n)
  }

  lemma PassesWhen(s: State, n: nat, folded: set<nat>, x: nat)
    requires Live(s)
    ensures Passes(s, Commit(n, folded), x) <==> PassedIn(s.holes, s.flight.value.h, n, x)
  {
  }

  lemma AdvanceCovers(hs: seq<Hole>, h: Hole, n: nat, x: nat)
    requires Separated(hs)
    ensures Covered(Advance(hs, Progress(h, n), h.Start() + n > h.to), x) <==> Covered(hs, x) && !PassedIn(hs, h, n, x)
  {
    var p, done := Progress(h, n), h.Start() + n > h.to;
    if i :| 0 <= i < |hs| && Matches(hs[i], h) {
      hide Advance, Progress;
      CommitExactly(hs, h, n, i);
      hide Covered;
      SplitCovers(hs, i, x);
      OnlyMatch(hs, h, i, n, x);
      var out := Advance(hs, p, done);
      if Finishes(hs[i], h, n) {
        CoveredConcat(hs[..i], hs[i + 1..], x);
      } else {
        SplitCovers(out, i, x);
      }
    } else {
      AdvanceNothing(hs, p, done);
    }
  }

  lemma SplitCovers(hs: seq<Hole>, i: nat, x: nat)
    requires i < |hs|
    ensures Covered(hs, x) <==> Covered(hs[..i], x) || hs[i].Has(x) || Covered(hs[i + 1..], x)
  {
    assert hs == hs[..i] + [hs[i]] + hs[i + 1..];
    CoveredConcat(hs[..i] + [hs[i]], hs[i + 1..], x);
    CoveredConcat(hs[..i], [hs[i]], x);
    CoveredOne(hs[i], x);
  }

  lemma SameStart(hs: seq<Hole>, i: nat, j: nat)
    requires Separated(hs) && i < |hs| && j < |hs| && hs[i].from == hs[j].from
    ensures i == j
  {
  }

  /** The one matching entry decides, and a block in it is in no other. */
  lemma OnlyMatch(hs: seq<Hole>, h: Hole, i: nat, n: nat, x: nat)
    requires Separated(hs) && i < |hs| && Matches(hs[i], h)
    ensures PassedIn(hs, h, n, x) <==> hs[i].Has(x) && Finishes(hs[i], h, n)
    ensures hs[i].Has(x) ==> !Covered(hs[..i], x) && !Covered(hs[i + 1..], x)
  {
    if hs[i].Has(x) {
      forall j | 0 <= j < |hs| && j != i ensures !hs[j].Has(x) { NotThere(hs, i, j, x); }
    }
    if PassedIn(hs, h, n, x) {
      var j :| 0 <= j < |hs| && hs[j].Has(x) && Matches(hs[j], h) && Finishes(hs[j], h, n);
      SameStart(hs, i, j);
    }
  }

  /** Exactly what each step does to the missing blocks: a recorded range adds its own, a live commit takes those of the entry it
      finishes, and no other step adds or takes any. */
  lemma StepCoversExactly(s: State, step: Step, x: nat)
    requires Inv(s) && Enabled(s, step)
    ensures Covered(Next(s, step).holes, x) <==>
            (Covered(s.holes, x) && !Passes(s, step, x)) || (step.Record? && step.r.Has(x))
  {
    hide Covered, Normalized, Advance, Progress, Finishes, Guarded, AtMostOnce;
    match step
    case Record(r) =>
      NormalizeKeeps(s.holes + [r], multiset{}, x);
      CoveredConcat(s.holes, [r], x);
      CoveredOne(r, x);
    case Capture(_) =>
    case Commit(n, folded) => if Live(s) { CommitCovers(s, n, folded, x); }
    case GiveUp =>
    case Mark(i, reason, life) =>
      NormalizeKeeps(s.holes[i := s.holes[i].(reason := reason, life := life)], multiset{}, x);
      SameRanges(s.holes, s.holes[i := s.holes[i].(reason := reason, life := life)], x);
    case Rewind(ancestor, cleared) =>
      NormalizeKeeps(BackAll(s.holes, ancestor, cleared), multiset{}, x);
      SameRanges(s.holes, BackAll(s.holes, ancestor, cleared), x);
  }

  lemma SameRanges(a: seq<Hole>, b: seq<Hole>, x: nat)
    requires |a| == |b| && forall i :: 0 <= i < |a| ==> a[i].from == b[i].from && a[i].to == b[i].to
    ensures Covered(a, x) <==> Covered(b, x)
  {
    if Covered(a, x) {
      var i :| 0 <= i < |a| && a[i].Has(x);
      assert b[i].Has(x);
    }
    if Covered(b, x) {
      var i :| 0 <= i < |b| && b[i].Has(x);
      assert a[i].Has(x);
    }
  }

  // ----- what has been committed -----

  /** The blocks live commits have delivered, less those a rewind orphaned. */
  ghost function Delivered(s: State, step: Step, have: set<nat>): set<nat>
    requires Enabled(s, step)
  {
    match step
    case Commit(n, _) => if Live(s) then have + Batch(s.flight.value.h.Start(), n) else have
    case Rewind(ancestor, _) => set b | b in have && b <= ancestor
    case _ => have
  }

  ghost function Batch(from: nat, n: nat): (r: set<nat>)
    ensures forall b: nat :: b in r <==> from <= b < from + n
  {
    if n == 0 then {} else Batch(from, n - 1) + {from + n - 1}
  }

  /** Everything below a range's cursor was delivered, and the cursor is at most one past its end. */
  ghost predicate CursorOk(h: Hole, have: set<nat>) {
    h.next <= h.to + 1 && forall b: nat :: h.Has(b) && b < h.next ==> b in have
  }

  ghost predicate CursorsOk(hs: seq<Hole>, have: set<nat>) { forall i :: 0 <= i < |hs| ==> CursorOk(hs[i], have) }

  ghost predicate Tracked(s: State, have: set<nat>) {
    CursorsOk(s.holes, have) && (Live(s) ==> CursorOk(s.flight.value.h, have))
  }

  lemma MergedCursor(a: Hole, h: Hole, have: set<nat>)
    requires CursorOk(a, have) && CursorOk(h, have) && a.from <= h.from && Joins(a, h)
    ensures CursorOk(Merged(a, h), have)
  {
    forall b: nat | Merged(a, h).Has(b) && b < Merged(a, h).next ensures b in have {
      MergedCovers(a, h, b);
    }
  }

  lemma JoinedCursors(m: seq<Hole>, h: Hole, have: set<nat>)
    requires CursorsOk(m, have) && CursorOk(h, have) && (m != [] ==> m[|m| - 1].from <= h.from)
    ensures CursorsOk(Joined(m, h), have)
  {
    hide CursorOk, Merged;
    if m != [] && Joins(m[|m| - 1], h) {
      assert CursorOk(m[|m| - 1], have);
      MergedCursor(m[|m| - 1], h, have);
    }
  }

  lemma {:induction false} MergeCursors(s: seq<Hole>, have: set<nat>)
    requires Ordered(s) && CursorsOk(s, have)
    ensures CursorsOk(MergeAll(s), have)
    decreases |s|
  {
    hide CursorOk, Joined, Ordered;
    if s != [] {
      OrderedFront(s);
      MergeTop(s[..|s| - 1]);
      MergeCursors(s[..|s| - 1], have);
      JoinedCursors(MergeAll(s[..|s| - 1]), s[|s| - 1], have);
    }
  }

  lemma {:induction false} SortCursors(hs: seq<Hole>, have: set<nat>)
    requires CursorsOk(hs, have)
    ensures CursorsOk(Sort(hs), have)
    decreases |hs|
  {
    hide CursorOk;
    if hs != [] {
      var h := hs[|hs| - 1];
      SortCursors(hs[..|hs| - 1], have);
      if h.to >= h.from { var k := InsertHas(Sort(hs[..|hs| - 1]), h); }
    }
  }

  lemma NormalizedCursors(hs: seq<Hole>, have: set<nat>)
    requires CursorsOk(hs, have)
    ensures CursorsOk(Normalized(hs), have)
  {
    hide CursorsOk, Sort, MergeAll, Ordered;
    SortOrdered(hs);
    SortCursors(hs, have);
    MergeCursors(Sort(hs), have);
  }

  lemma UpdatedCursor(cur: Hole, h: Hole, n: nat, have: set<nat>)
    requires CursorOk(cur, have) && CursorOk(h, have) && Matches(cur, h) && 1 <= n <= h.to - h.Start() + 1 && h.from <= h.to
    ensures CursorOk(Updated(cur, Progress(h, n)), have + Batch(h.Start(), n))
  {
  }

  lemma AdvanceCursors(hs: seq<Hole>, h: Hole, n: nat, have: set<nat>)
    requires CursorsOk(hs, have) && CursorOk(h, have) && 1 <= n <= h.to - h.Start() + 1 && h.from <= h.to
    ensures CursorsOk(Advance(hs, Progress(h, n), h.Start() + n > h.to), have + Batch(h.Start(), n))
  {
    hide CursorOk, Batch, Advance;
    var p, done := Progress(h, n), h.Start() + n > h.to;
    var out := Advance(hs, p, done);
    forall j | 0 <= j < |out| ensures CursorOk(out[j], have + Batch(h.Start(), n)) {
      var i := AdvanceFrom(hs, p, done, j);
      if Matches(hs[i], p) {
        UpdatedCursor(hs[i], h, n, have);
      } else {
        MoreDelivered(hs[i], have, Batch(h.Start(), n));
      }
    }
  }

  lemma MoreDelivered(h: Hole, have: set<nat>, more: set<nat>)
    requires CursorOk(h, have)
    ensures CursorOk(h, have + more)
  {
  }

  lemma BackCursor(h: Hole, ancestor: nat, cleared: bool, have: set<nat>)
    requires CursorOk(h, have)
    ensures CursorOk(Back(h, ancestor, cleared), set b | b in have && b <= ancestor)
  {
  }

  /** Ranges are recorded without a cursor. */
  ghost predicate Bare(step: Step) { step.Record? ==> step.r.next == 0 }

  lemma StepTracks(s: State, step: Step, have: set<nat>)
    requires Tracked(s, have) && Enabled(s, step) && Bare(step) && (s.flight.Some? ==> s.flight.value.gen <= s.gen)
    ensures Tracked(Next(s, step), Delivered(s, step, have))
  {
    hide CursorOk, Normalized, Advance, Progress, Batch;
    match step
    case Record(r) =>
      assert CursorOk(r, have) by { BareCursor(r, have); }
      NormalizedCursors(s.holes + [r], have);
    case Capture(i) => ClaimedCursor(s.holes[i], have);
    case Commit(n, folded) =>
      if Live(s) {
        var h := s.flight.value.h;
        AdvanceCursors(s.holes, h, n, have);
        NormalizedCursors(Advance(s.holes, Progress(h, n), h.Start() + n > h.to), have + Batch(h.Start(), n));
      }
    case GiveUp =>
    case Mark(i, reason, life) =>
      MarkedCursor(s.holes[i], reason, life, have);
      NormalizedCursors(s.holes[i := s.holes[i].(reason := reason, life := life)], have);
    case Rewind(ancestor, cleared) =>
      var back := BackAll(s.holes, ancestor, cleared);
      forall i | 0 <= i < |back| ensures CursorOk(back[i], Delivered(s, step, have)) { BackCursor(s.holes[i], ancestor, cleared, have); }
      NormalizedCursors(back, Delivered(s, step, have));
  }

  lemma BareCursor(r: Hole, have: set<nat>)
    requires r.next == 0
    ensures CursorOk(r, have)
  {
  }

  lemma ClaimedCursor(h: Hole, have: set<nat>)
    requires CursorOk(h, have)
    ensures CursorOk(Claimed(h), have)
  {
  }

  lemma MarkedCursor(h: Hole, reason: string, life: Lifecycle, have: set<nat>)
    requires CursorOk(h, have)
    ensures CursorOk(h.(reason := reason, life := life), have)
  {
  }

  /** A block that leaves the queue has been delivered. */
  lemma PassedIsDelivered(s: State, step: Step, have: set<nat>, x: nat)
    requires Tracked(s, have) && Enabled(s, step) && Passes(s, step, x)
    ensures x in Delivered(s, step, have)
  {
    var h := s.flight.value.h;
    assert h.Has(x);
    assert h.from <= h.to && 1 <= step.n <= h.to - h.Start() + 1;
    if x < h.Start() { assert x < h.next; }
  }

  // ----- whole runs -----

  ghost predicate Run(s: State, run: seq<Step>)
    decreases |run|
  {
    run == [] || (
      && Enabled(s, run[0]) && Bare(run[0])
      && (run[0].Commit? && Live(s) ==> Anchored(s.holes, s.flight.value.h))
      && (run[0].Record? ==> Sheltered(s, run[0].r))
      && Run(Next(s, run[0]), run[1..]))
  }

  ghost function End(s: State, run: seq<Step>): State
    requires Run(s, run)
    decreases |run|
  {
    if run == [] then s else End(Next(s, run[0]), run[1..])
  }

  ghost function Had(s: State, run: seq<Step>, have: set<nat>): set<nat>
    requires Run(s, run)
    decreases |run|
  {
    if run == [] then have else Had(Next(s, run[0]), run[1..], Delivered(s, run[0], have))
  }

  ghost predicate NeverPassed(s: State, run: seq<Step>, x: nat)
    requires Run(s, run)
    decreases |run|
  {
    run == [] || (!Passes(s, run[0], x) && NeverPassed(Next(s, run[0]), run[1..], x))
  }

  /** A recorded missing block stays in the queue until a live commit finishes the range it is in. */
  lemma {:induction false} MissingUntilPassed(s: State, run: seq<Step>, x: nat)
    requires Inv(s) && Run(s, run) && Covered(s.holes, x) && NeverPassed(s, run, x)
    ensures Covered(End(s, run).holes, x)
    decreases |run|
  {
    hide Inv, Next, Enabled, Covered, Passes, Sheltered;
    if run != [] {
      StepKeeps(s, run[0]);
      StepCoversExactly(s, run[0], x);
      MissingUntilPassed(Next(s, run[0]), run[1..], x);
    }
  }

  lemma {:induction false} RunTracks(s: State, run: seq<Step>, have: set<nat>)
    requires Inv(s) && Run(s, run) && Tracked(s, have)
    ensures Tracked(End(s, run), Had(s, run, have)) && Inv(End(s, run))
    decreases |run|
  {
    if run != [] {
      assert s.flight.Some? ==> s.flight.value.gen <= s.gen;
      hide Inv, Next, Enabled, Tracked, Sheltered;
      StepKeeps(s, run[0]);
      StepTracks(s, run[0], have);
      RunTracks(Next(s, run[0]), run[1..], Delivered(s, run[0], have));
    }
  }

  /** And whenever it is, every block of the range has been delivered by a live commit no rewind has orphaned since: nothing is
      dropped from the queue unfilled. */
  lemma NothingDroppedUnfilled(run: seq<Step>, step: Step, x: nat)
    requires Run(NONE, run) && Enabled(End(NONE, run), step) && Bare(step)
    requires Covered(End(NONE, run).holes, x) && !Covered(Next(End(NONE, run), step).holes, x)
    ensures x in Delivered(End(NONE, run), step, Had(NONE, run, {}))
  {
    assert Inv(NONE) && Tracked(NONE, {});
    RunTracks(NONE, run, {});
    hide Inv, Run, End, Had, Next, Covered, Tracked, Delivered;
    StepCoversExactly(End(NONE, run), step, x);
    PassedIsDelivered(End(NONE, run), step, Had(NONE, run, {}), x);
  }
}
