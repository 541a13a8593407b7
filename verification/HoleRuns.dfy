/** Fill commits, discarded stale commits, new ranges and rewinds in any order: no block is folded into the
    additive buckets twice between two deletions of them. */
module HoleRuns {
  import opened Words
  import opened Holes

  /** A fill in progress: the generation and the hole as they were when its headers were asked for. */
  datatype Flight = Flight(gen: nat, h: Hole)

  /** `folds` counts how often fills folded each block into the additive buckets since they were last deleted. What the
      backfill folds there itself is not counted: it lies in no range of the queue. */
  datatype State = State(holes: seq<Hole>, gen: nat, flight: Option<Flight>, folds: multiset<nat>)

  datatype Step =
    | Record(r: Hole)
    | Capture(i: nat)
    | Commit(n: nat, folded: set<nat>)
    | GiveUp
    | Mark(i: nat, reason: string, life: Lifecycle)
    | Rewind(ancestor: nat, cleared: bool)

  ghost predicate Live(s: State) { s.flight.Some? && s.flight.value.gen == s.gen }

  /** A blocked range that can be replayed after all is worked on as a pending one without a reason. */
  function Claimed(h: Hole): Hole { if h.life == Blocked then h.(reason := "", life := Pending) else h }

  /** A commit of n blocks folds some of those at or above the captured watermark. A new range overlaps
      no other. */
  ghost predicate Enabled(s: State, step: Step) {
    match step
    case Record(r) => r.from <= r.to && Apart(s.holes, r)
    case Capture(i) => s.flight.None? && i < |s.holes|
    case Commit(n, folded) =>
      && s.flight.Some?
      && var h := s.flight.value.h;
      && h.from <= h.to && 1 <= n <= h.to - h.Start() + 1
      && forall b :: b in folded ==> h.Start() <= b < h.Start() + n && h.folded <= b
    case GiveUp => s.flight.Some?
    case Mark(i, _, _) => i < |s.holes|
    case Rewind(_, _) => true
  }

  ghost function Next(s: State, step: Step): State
    requires Enabled(s, step)
  {
    match step
    case Record(r) => s.(holes := Normalized(s.holes + [r]))
    case Capture(i) => s.(flight := Some(Flight(s.gen, Claimed(s.holes[i]))))
    case Commit(n, folded) =>
      var h := s.flight.value.h;
      if s.flight.value.gen != s.gen then s.(flight := None)
      else State(Normalized(Advance(s.holes, Progress(h, n), h.Start() + n > h.to)), s.gen, None, s.folds + multiset(folded))
    case GiveUp => s.(flight := None)
    case Mark(i, reason, life) => s.(holes := Normalized(s.holes[i := s.holes[i].(reason := reason, life := life)]))
    case Rewind(ancestor, cleared) =>
      var back := BackAll(s.holes, ancestor, cleared);
      State(if back == s.holes then s.holes else Normalized(back), s.gen + 1, s.flight, if cleared then multiset{} else s.folds)
  }

  // ----- the invariant -----

  ghost predicate AtMostOnce(folds: multiset<nat>) { forall b: nat :: folds[b] <= 1 }

  ghost predicate Inv(s: State) {
    && Separated(s.holes) && Settled(s.holes)
    && Guarded(s.holes, s.folds)
    && AtMostOnce(s.folds)
    && (s.flight.Some? ==> s.flight.value.gen <= s.gen)
    && (Live(s) ==> Guards(s.flight.value.h, s.folds))
  }

  /** An entry still starts where the captured one did, and reaches as far. */
  ghost predicate Anchored(hs: seq<Hole>, h: Hole) { exists i :: 0 <= i < |hs| && Matches(hs[i], h) }

  // ----- advancing -----

  lemma {:induction false} AdvanceFrom(hs: seq<Hole>, h: Hole, done: bool, j: nat) returns (i: nat)
    requires j < |Advance(hs, h, done)|
    ensures i < |hs|
    ensures Advance(hs, h, done)[j] == if Matches(hs[i], h) then Updated(hs[i], h) else hs[i]
    decreases |hs|
  {
    var front := hs[..|hs| - 1];
    if j < |Advance(front, h, done)| {
      i := AdvanceFrom(front, h, done, j);
    } else {
      i := |hs| - 1;
    }
  }

  lemma {:induction false} AdvanceSeparated(hs: seq<Hole>, h: Hole, done: bool)
    requires Separated(hs)
    ensures Separated(Advance(hs, h, done))
    decreases |hs|
  {
    hide Separated;
    if hs == [] {
      SeparatedNone();
    } else {
      var front, cur := hs[..|hs| - 1], hs[|hs| - 1];
      SeparatedFront(hs);
      AdvanceSeparated(front, h, done);
      var a := Advance(front, h, done);
      forall j | 0 <= j < |a| ensures a[j].to < cur.from {
        var i := AdvanceFrom(front, h, done, j);
        BelowLast(hs, i);
      }
      SeparatedMore(a, cur);
      SeparatedMore(a, Updated(cur, h));
      assert a + [] == a;
    }
  }

  lemma SeparatedNone()
    ensures Separated([])
  {
  }

  lemma BelowLast(hs: seq<Hole>, i: nat)
    requires Separated(hs) && i < |hs| - 1
    ensures hs[i].to < hs[|hs| - 1].from
  {
  }

  lemma SeparatedMore(a: seq<Hole>, h: Hole)
    requires Separated(a) && h.from <= h.to && forall j :: 0 <= j < |a| ==> a[j].to < h.from
    ensures Separated(a + [h])
  {
  }

  /** Blocks of one range are in no other. */
  lemma NotThere(hs: seq<Hole>, i: nat, j: nat, b: nat)
    requires Separated(hs) && i < |hs| && j < |hs| && i != j && hs[i].Has(b)
    ensures !hs[j].Has(b)
  {
  }

  lemma UpdatedGuards(cur: Hole, p: Hole, folds: multiset<nat>, folded: set<nat>)
    requires Guards(cur, folds) && forall b :: b in folded ==> b < p.folded
    ensures Guards(Updated(cur, p), folds + multiset(folded))
  {
  }

  lemma UntouchedGuards(cur: Hole, folds: multiset<nat>, folded: set<nat>)
    requires Guards(cur, folds) && forall b :: b in folded && cur.Has(b) ==> b < cur.folded
    ensures Guards(cur, folds + multiset(folded))
  {
  }

  /** A commit whose entry is still there raises that entry's watermark past all it folds. */
  lemma AdvanceGuards(hs: seq<Hole>, h: Hole, p: Hole, done: bool, folds: multiset<nat>, folded: set<nat>)
    requires Separated(hs) && Guarded(hs, folds) && Anchored(hs, h)
    requires p.from == h.from && p.to == h.to && forall b :: b in folded ==> h.Has(b) && b < p.folded
    ensures Guarded(Advance(hs, p, done), folds + multiset(folded))
  {
    hide Guards, Separated, Advance;
    var a :| 0 <= a < |hs| && Matches(hs[a], h);
    var out := Advance(hs, p, done);
    forall j | 0 <= j < |out| ensures Guards(out[j], folds + multiset(folded)) {
      var i := AdvanceFrom(hs, p, done, j);
      if Matches(hs[i], p) {
        UpdatedGuards(hs[i], p, folds, folded);
      } else {
        forall b | b in folded ensures !hs[i].Has(b) { NotThere(hs, a, i, b); }
        UntouchedGuards(hs[i], folds, folded);
      }
    }
  }

  lemma FoldedOnce(h: Hole, folds: multiset<nat>, folded: set<nat>)
    requires AtMostOnce(folds) && Guards(h, folds)
    requires forall b :: b in folded ==> h.Has(b) && h.folded <= b
    ensures AtMostOnce(folds + multiset(folded))
  {
    forall b: nat ensures (folds + multiset(folded))[b] <= 1 {
      assert b in folded ==> folds[b] == 0;
    }
  }

  lemma CommitFolds(s: State, n: nat, folded: set<nat>)
    requires Live(s) && Enabled(s, Commit(n, folded))
    ensures var h := s.flight.value.h;
            forall b :: b in folded ==> h.Has(b) && h.folded <= b < Progress(h, n).folded
  {
  }

  lemma LiveCommit(s: State, n: nat, folded: set<nat>)
    requires Live(s) && Enabled(s, Commit(n, folded))
    ensures var h := s.flight.value.h;
            Next(s, Commit(n, folded)) ==
            State(Normalized(Advance(s.holes, Progress(h, n), h.Start() + n > h.to)), s.gen, None, s.folds + multiset(folded))
  {
    hide Normalized, Advance, Progress;
  }

  lemma CommitKeeps(s: State, n: nat, folded: set<nat>)
    requires Inv(s) && Live(s) && Enabled(s, Commit(n, folded)) && Anchored(s.holes, s.flight.value.h)
    ensures Inv(Next(s, Commit(n, folded)))
  {
    hide Guarded, Separated, Settled, AtMostOnce, Guards, Progress, Advance, Normalized, Anchored, Enabled, Next;
    var h := s.flight.value.h;
    var p, done := Progress(h, n), h.Start() + n > h.to;
    LiveCommit(s, n, folded);
    CommitFolds(s, n, folded);
    ProgressRange(h, n);
    AdvanceGuards(s.holes, h, p, done, s.folds, folded);
    AdvanceSeparated(s.holes, p, done);
    NormalizeSeparates(Advance(s.holes, p, done));
    NormalizeKeeps(Advance(s.holes, p, done), s.folds + multiset(folded), 0);
    FoldedOnce(h, s.folds, folded);
  }

  lemma ProgressRange(h: Hole, n: nat)
    ensures Progress(h, n).from == h.from && Progress(h, n).to == h.to
  {
  }

  // ----- the other steps -----

  /** Every folded block of a range being recorded lies below the watermark of the entry that will hold it. */
  ghost predicate Sheltered(s: State, r: Hole) {
    var after := Normalized(s.holes + [r]);
    forall i, b: nat :: 0 <= i < |after| && after[i].Has(b) && r.Has(b) && s.folds[b] > 0 ==> b < after[i].folded
  }

  /** The folded blocks outside a range, each once. */
  ghost function Outside(folds: multiset<nat>, r: Hole): multiset<nat> {
    multiset(set b | b in folds && !r.Has(b))
  }

  lemma RecordGuards(hs: seq<Hole>, r: Hole, folds: multiset<nat>)
    requires Guarded(hs, folds)
    ensures Guarded(hs + [r], Outside(folds, r))
  {
    var out := Outside(folds, r);
    forall i | 0 <= i < |hs + [r]| ensures Guards((hs + [r])[i], out) {
      if i < |hs| { assert Guards(hs[i], folds); }
    }
  }

  lemma ShelteredGuards(s: State, r: Hole)
    requires Guarded(s.holes, s.folds)
    ensures Guarded(Normalized(s.holes + [r]), s.folds) <==> Sheltered(s, r)
  {
    hide Normalized;
    var after := Normalized(s.holes + [r]);
    RecordGuards(s.holes, r, s.folds);
    NormalizeKeeps(s.holes + [r], Outside(s.folds, r), 0);
    if Sheltered(s, r) {
      forall i | 0 <= i < |after| ensures Guards(after[i], s.folds) {
        assert Guards(after[i], Outside(s.folds, r));
      }
    }
    if Guarded(after, s.folds) {
      forall i, b: nat | 0 <= i < |after| && after[i].Has(b) && r.Has(b) && s.folds[b] > 0 ensures b < after[i].folded {
        assert Guards(after[i], s.folds);
      }
    }
  }

  /** The exact condition for a new range: the watermarks stay sound if and only if each folded block of it
      lies below the watermark of the entry that will hold it. A fresh range has a watermark of zero, so this
      means that it holds nothing folded, or joins an entry already past what it holds. */
  lemma RecordSafeExactlyWhen(s: State, r: Hole)
    requires Inv(s) && Enabled(s, Record(r))
    ensures Inv(Next(s, Record(r))) <==> Sheltered(s, r)
  {
    hide Guarded, Separated, Settled, AtMostOnce, Guards, Normalized, Apart, Sheltered;
    RecordSeparates(s.holes, r);
    ShelteredGuards(s, r);
  }

  lemma MarkKeeps(s: State, i: nat, reason: string, life: Lifecycle)
    requires Inv(s) && Enabled(s, Mark(i, reason, life))
    ensures Inv(Next(s, Mark(i, reason, life)))
  {
    hide Guarded, Separated, Settled, AtMostOnce, Guards, Normalized;
    var hs := s.holes[i := s.holes[i].(reason := reason, life := life)];
    SameRangesKeep(s.holes, hs, s.folds);
    NormalizeSeparates(hs);
    NormalizeKeeps(hs, s.folds, 0);
  }

  lemma SameRangesKeep(hs: seq<Hole>, ms: seq<Hole>, folds: multiset<nat>)
    requires Separated(hs) && Guarded(hs, folds) && |ms| == |hs|
    requires forall k :: 0 <= k < |hs| ==> ms[k].from == hs[k].from && ms[k].to == hs[k].to && ms[k].folded == hs[k].folded
    ensures Separated(ms) && Guarded(ms, folds)
  {
    forall k | 0 <= k < |ms| ensures Guards(ms[k], folds) { assert Guards(hs[k], folds); }
  }

  /** A rewind moves cursors and perhaps watermarks; every range stays where it is. */
  lemma BackIsSettled(hs: seq<Hole>, ancestor: nat, cleared: bool)
    requires Separated(hs) && Settled(hs)
    ensures Separated(BackAll(hs, ancestor, cleared)) && Settled(BackAll(hs, ancestor, cleared))
    ensures Normalized(BackAll(hs, ancestor, cleared)) == BackAll(hs, ancestor, cleared)
  {
    var back := BackAll(hs, ancestor, cleared);
    assert Separated(back);
    assert Settled(back) by {
      forall i | 0 <= i < |back| - 1 ensures !Joins(back[i], back[i + 1]) { assert !Joins(hs[i], hs[i + 1]); }
    }
    hide Separated, Settled;
    SortSeparated(back);
    MergeSettled(back);
  }

  lemma BackGuards(hs: seq<Hole>, ancestor: nat, cleared: bool, folds: multiset<nat>)
    requires Guarded(hs, folds)
    ensures Guarded(BackAll(hs, ancestor, cleared), if cleared then multiset{} else folds)
  {
    var back := BackAll(hs, ancestor, cleared);
    forall i | 0 <= i < |back| ensures Guards(back[i], if cleared then multiset{} else folds) {
      assert Guards(hs[i], folds);
    }
  }

  lemma RewindKeeps(s: State, ancestor: nat, cleared: bool)
    requires Inv(s)
    ensures Inv(Next(s, Rewind(ancestor, cleared)))
  {
    hide Guarded, Separated, Settled, Guards, Normalized;
    BackIsSettled(s.holes, ancestor, cleared);
    BackGuards(s.holes, ancestor, cleared, s.folds);
  }

  lemma StepKeeps(s: State, step: Step)
    requires Inv(s) && Enabled(s, step)
    requires step.Commit? && Live(s) ==> Anchored(s.holes, s.flight.value.h)
    requires step.Record? ==> Sheltered(s, step.r)
    ensures Inv(Next(s, step))
  {
    hide Guarded, Separated, Settled, AtMostOnce, Guards, Normalized, Advance, Progress, Apart, Anchored, Sheltered;
    match step
    case Record(r) => RecordSafeExactlyWhen(s, r);
    case Capture(i) => GuardedAt(s.holes, s.folds, i);
    case Commit(n, folded) => if Live(s) { CommitKeeps(s, n, folded); }
    case GiveUp =>
    case Mark(i, reason, life) => MarkKeeps(s, i, reason, life);
    case Rewind(ancestor, cleared) => RewindKeeps(s, ancestor, cleared);
  }

  lemma GuardedAt(hs: seq<Hole>, folds: multiset<nat>, i: nat)
    requires Guarded(hs, folds) && i < |hs|
    ensures Guards(Claimed(hs[i]), folds)
  {
    assert Guards(hs[i], folds);
  }

  // ----- whole runs -----

  /** Each step is possible, each commit that is not stale finds its entry, and each new range is sheltered. */
  ghost predicate Legal(s: State, run: seq<Step>)
    decreases |run|
  {
    run == [] || (
      && Enabled(s, run[0])
      && (run[0].Commit? && Live(s) ==> Anchored(s.holes, s.flight.value.h))
      && (run[0].Record? ==> Sheltered(s, run[0].r))
      && Legal(Next(s, run[0]), run[1..]))
  }

  ghost function After(s: State, run: seq<Step>): State
    requires Legal(s, run)
    decreases |run|
  {
    if run == [] then s else After(Next(s, run[0]), run[1..])
  }

  const NONE := State([], 0, None, multiset{})

  lemma {:induction false} RunKeeps(s: State, run: seq<Step>)
    requires Inv(s) && Legal(s, run)
    ensures Inv(After(s, run))
    decreases |run|
  {
    hide Inv, Next, Enabled, Sheltered;
    if run != [] {
      StepKeeps(s, run[0]);
      RunKeeps(Next(s, run[0]), run[1..]);
    }
  }

  /** No block is folded twice between two deletions of the additive buckets. */
  lemma NoBlockFoldedTwice(run: seq<Step>, b: nat)
    requires Legal(NONE, run)
    ensures After(NONE, run).folds[b] <= 1
  {
    RunKeeps(NONE, run);
  }

  // ----- and when one does not -----

  lemma {:induction false} AdvanceNothing(hs: seq<Hole>, h: Hole, done: bool)
    requires forall i :: 0 <= i < |hs| ==> !Matches(hs[i], h)
    ensures Advance(hs, h, done) == hs
    decreases |hs|
  {
    if hs != [] {
      AdvanceNothing(hs[..|hs| - 1], h, done);
      assert hs == hs[..|hs| - 1] + [hs[|hs| - 1]];
    }
  }

  lemma UnanchoredCommit(s: State, n: nat, folded: set<nat>)
    requires Separated(s.holes) && Settled(s.holes) && Live(s) && Enabled(s, Commit(n, folded))
    requires !Anchored(s.holes, s.flight.value.h)
    ensures Next(s, Commit(n, folded)) == State(s.holes, s.gen, None, s.folds + multiset(folded))
  {
    hide Separated, Settled, Advance, Sort, MergeAll;
    var h := s.flight.value.h;
    AdvanceNothing(s.holes, Progress(h, n), h.Start() + n > h.to);
    SortSeparated(s.holes);
    MergeSettled(s.holes);
  }

  /** The exact condition: a live commit keeps the watermarks sound if and only if its entry still starts
      where it did, or nothing it folds lies at or above the watermark of the range that now holds it. */
  lemma CommitSafeExactlyWhen(s: State, n: nat, folded: set<nat>)
    requires Inv(s) && Live(s) && Enabled(s, Commit(n, folded))
    ensures Inv(Next(s, Commit(n, folded))) <==>
            (Anchored(s.holes, s.flight.value.h)
             || forall i, b :: 0 <= i < |s.holes| && b in folded && s.holes[i].Has(b) ==> b < s.holes[i].folded)
  {
    var h := s.flight.value.h;
    if Anchored(s.holes, h) {
      CommitKeeps(s, n, folded);
    } else {
      UnanchoredCommit(s, n, folded);
      CommitFolds(s, n, folded);
      hide Separated, Settled, Guarded, AtMostOnce, Guards, Progress;
      FoldedOnce(h, s.folds, folded);
      UnanchoredExactly(s.holes, s.folds, folded);
    }
  }

  lemma UnanchoredExactly(hs: seq<Hole>, folds: multiset<nat>, folded: set<nat>)
    requires Guarded(hs, folds)
    ensures Guarded(hs, folds + multiset(folded)) <==>
            forall i, b :: 0 <= i < |hs| && b in folded && hs[i].Has(b) ==> b < hs[i].folded
  {
    var all := folds + multiset(folded);
    if Guarded(hs, all) {
      forall i, b | 0 <= i < |hs| && b in folded && hs[i].Has(b) ensures b < hs[i].folded {
        assert Guards(hs[i], all);
        assert all[b] > 0;
      }
    }
    if forall i, b :: 0 <= i < |hs| && b in folded && hs[i].Has(b) ==> b < hs[i].folded {
      forall i | 0 <= i < |hs| ensures Guards(hs[i], all) {
        assert Guards(hs[i], folds);
        UntouchedGuards(hs[i], folds, folded);
      }
    }
  }

  lemma ThreeSteps(s: State, a: Step, b: Step, c: Step)
    requires Enabled(s, a) && a.Rewind? && Enabled(Next(s, a), b) && b.Capture?
    requires var t := Next(Next(s, a), b); Enabled(t, c) && c.Commit? && Anchored(t.holes, t.flight.value.h)
    ensures Legal(s, [a, b, c]) && After(s, [a, b, c]) == Next(Next(Next(s, a), b), c)
  {
    hide Next, Enabled, Anchored, Live;
    var t := Next(s, a);
    var u := Next(t, b);
    assert [c][1..] == [];
    assert Legal(Next(u, c), []) && After(Next(u, c), []) == Next(u, c);
    assert Legal(u, [c]) && After(u, [c]) == Next(u, c);
    assert [b, c][1..] == [c];
    assert Legal(t, [b, c]) && After(t, [b, c]) == Next(u, c);
    assert [a, b, c][1..] == [b, c];
  }

  lemma FillsAgain(s: State, i: nat, b: nat)
    requires s.flight.None? && i < |s.holes| && s.holes[i].Start() <= b
    requires s.holes[i].Has(b) && s.folds[b] > 0 && s.holes[i].folded <= b
    ensures var t := Next(s, Capture(i));
            var c := Commit(b - s.holes[i].Start() + 1, {b});
            && Enabled(t, c) && Live(t) && Anchored(t.holes, t.flight.value.h)
            && Next(t, c).folds[b] > 1
  {
    hide Normalized, Advance;
    assert Matches(s.holes[i], s.holes[i]);
    var one: multiset<nat> := multiset({b});
    assert (s.folds + one)[b] == s.folds[b] + 1;
  }

  /** And sound watermarks are needed: a folded block at or above its range's watermark is folded again
      by rewinding to below the range and filling it. */
  lemma UnguardedFoldsAgain(s: State, i: nat, b: nat)
    requires Separated(s.holes) && Settled(s.holes) && s.flight.None? && i < |s.holes|
    requires s.holes[i].Has(b) && s.folds[b] > 0 && s.holes[i].folded <= b && b > 0
    ensures var run := [Rewind(0, false), Capture(i), Commit(b - Back(s.holes[i], 0, false).Start() + 1, {b})];
            Legal(s, run) && After(s, run).folds[b] > 1
  {
    hide Separated, Settled, Normalized, Advance;
    BackIsSettled(s.holes, 0, false);
    var s1 := Next(s, Rewind(0, false));
    assert s1.holes[i] == Back(s.holes[i], 0, false);
    FillsAgain(s1, i, b);
    ThreeSteps(s, Rewind(0, false), Capture(i), Commit(b - s1.holes[i].Start() + 1, {b}));
  }

  /** The owner scan records everything below its cutoff while a range just above it, recorded without a
      state, is being filled because a state has appeared. */
  const ABOVE := Hole(10, 20, 0, 0, "no state", Blocked)
  const BELOW := Hole(0, 9, 0, 0, "no state", Blocked)
  const WIDE := Hole(0, 20, 0, 0, "no state", Blocked)

  lemma SortsFirst()
    ensures Sort([ABOVE, BELOW]) == [BELOW, ABOVE]
  {
    assert [ABOVE, BELOW] == [ABOVE] + [BELOW];
    SortMore([ABOVE], BELOW);
    assert [ABOVE] == [] + [ABOVE];
    SortMore([], ABOVE);
    hide Sort;
    assert Sort([ABOVE]) == [ABOVE] by { InsertLast([], ABOVE); }
    hide Insert;
    var k := InsertHas([ABOVE], BELOW);
    assert k == 0 && [ABOVE][..0] == [] && [ABOVE][0..] == [ABOVE];
  }

  lemma LeftMergeWidens()
    ensures Normalized([ABOVE, BELOW]) == [WIDE]
  {
    SortsFirst();
    hide Sort;
    assert [BELOW, ABOVE] == [BELOW] + [ABOVE];
    MergeMore([BELOW], ABOVE);
    assert [BELOW] == [] + [BELOW];
    MergeMore([], BELOW);
    assert MergeAll([]) == [];
    hide MergeAll;
    assert Joined([], BELOW) == [BELOW];
    assert Joined([BELOW], ABOVE) == [WIDE];
  }

  /** A merge to the left loses the watermark: the commit finds no entry starting at 10, and block 10 is
      in the buckets while the widened range still has it ahead of it. */
  lemma LeftMergeLosesWatermark()
    ensures var s := State([ABOVE], 0, None, multiset{});
            && Inv(s) && Enabled(s, Capture(0))
            && var t := Next(s, Capture(0));
            && Enabled(t, Record(BELOW)) && Sheltered(t, BELOW)
            && var u := Next(t, Record(BELOW));
            && Inv(u) && Enabled(u, Commit(11, {10})) && !Anchored(u.holes, u.flight.value.h)
            && !Inv(Next(u, Commit(11, {10})))
  {
    var t := State([ABOVE], 0, Some(Flight(0, Claimed(ABOVE))), multiset{});
    AboveAlone();
    hide Normalized, Advance, Inv, Guarded;
    RecordSafeExactlyWhen(t, BELOW);
    LeftMergeWidens();
    assert t.holes + [BELOW] == [ABOVE, BELOW];
    WideCommit(State([WIDE], 0, Some(Flight(0, Claimed(ABOVE))), multiset{}));
  }

  lemma AboveAlone()
    ensures var s := State([ABOVE], 0, None, multiset{});
            && Inv(s) && Enabled(s, Capture(0))
            && Next(s, Capture(0)) == State([ABOVE], 0, Some(Flight(0, Claimed(ABOVE))), multiset{})
            && Inv(Next(s, Capture(0)))
  {
  }

  lemma WideCommit(u: State)
    requires u == State([WIDE], 0, Some(Flight(0, Claimed(ABOVE))), multiset{}) && Inv(u)
    ensures Enabled(u, Commit(11, {10})) && !Anchored(u.holes, u.flight.value.h) && !Inv(Next(u, Commit(11, {10})))
  {
    hide Normalized, Advance, Inv;
    assert Live(u);
    assert u.holes[0].Has(10) && u.holes[0].folded == 0;
    CommitSafeExactlyWhen(u, 11, {10});
  }
}
