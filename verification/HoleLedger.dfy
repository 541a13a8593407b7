/** The queue of missing ranges together with what the collector stores beside it: the head, the live start
    and the top of the backfill (internal/collector/tick.go). Ranges are recorded between the stored head and
    the sampled one, and a rewind deletes the additive buckets when it reaches below the backfill's top. Tests
    on these alone decide whether a block can be folded into the additive buckets twice. */
module HoleLedger {
  import opened Words
  import opened Holes
  import opened HoleRuns

  /** `live` is the first live block, unset between a rewind below it and the next committed head; `top` is
      the block the backfill walks down from, zero before it starts. */
  datatype Ledger = Ledger(q: State, head: nat, live: Option<nat>, top: nat)

  datatype Event =
    | Tick(head: nat, skipped: Option<Hole>)
    | Backfill(top: nat)
    | Fill(step: Step)
    | Land(n: nat, folded: set<nat>, bounded: bool)
    | Reorg(ancestor: nat)

  /** Where what is in the additive buckets has to lie below: the live start, or the block after the head while
      there is none. */
  function Bound(s: Ledger): nat { if s.live.Some? then s.live.value else s.head + 1 }

  /** Whether a rewind deletes the additive buckets. */
  predicate Clears(s: Ledger, ancestor: nat) { BelowTop(s, ancestor) && s.live.Some? }

  predicate BelowTop(s: Ledger, ancestor: nat) { s.top != 0 && s.top - 1 > ancestor }

  /** What the collector could ask before a rewind: it deletes the additive buckets, or leaves every block
      that can be in them. */
  predicate Accounted(s: Ledger, ancestor: nat) { Clears(s, ancestor) || ancestor + 1 >= Bound(s) }

  ghost predicate InPlace(q: State) { Live(q) ==> Anchored(q.holes, q.flight.value.h) }

  /** The range skipped on the way to a new head, disjoint from the others. */
  ghost predicate Skips(s: Ledger, head: nat, r: Hole) {
    && r.from == s.head + 1 && r.to + 1 == head && r.from <= r.to && r.folded == 0
    && Apart(s.q.holes, r)
  }

  /** What can happen. A fill's batch lands as `bounded` when it had read a live start, and then folds additively only
      blocks stamped before the hour of the first live block, which come before it; without one it folds any. A
      stale batch folds nothing. */
  ghost predicate Possible(s: Ledger, e: Event) {
    match e
    case Tick(head, skipped) => head > s.head && (skipped.Some? ==> Skips(s, head, skipped.value))
    case Backfill(top) => s.top == 0
    case Fill(step) => (step.Capture? || step.GiveUp? || step.Mark?) && HoleRuns.Enabled(s.q, step)
    case Land(n, folded, bounded) =>
      && HoleRuns.Enabled(s.q, Commit(n, folded))
      && (bounded && Live(s.q) ==> s.live.Some? && forall b :: b in folded ==> b < s.live.value)
    case Reorg(ancestor) => ancestor <= s.head
  }

  /** What the collector could ask before it acts, from the queue, the head, the live start and the top alone: a skip
      does not end where the range being filled could lose its start, a mark does not widen that range to the
      left, a batch that read no live start ends below the bound, and a rewind is accounted for. */
  ghost predicate Allowed(s: Ledger, e: Event)
    requires Possible(s, e)
  {
    match e
    case Tick(head, skipped) => skipped.Some? && Live(s.q) ==> forall i :: 0 <= i < |s.q.holes| ==> s.q.holes[i].from != head
    case Backfill(_) => true
    case Fill(step) => step.Mark? ==> InPlace(HoleRuns.Next(s.q, step))
    case Land(n, _, bounded) => !bounded && Live(s.q) ==> BatchBelow(s, n)
    case Reorg(ancestor) => Accounted(s, ancestor)
  }

  /** The batch in flight ends below the bound. */
  predicate BatchBelow(s: Ledger, n: nat)
    requires s.q.flight.Some?
  {
    s.q.flight.value.h.Start() + n <= Bound(s)
  }

  ghost function After(s: Ledger, e: Event): Ledger
    requires Possible(s, e)
  {
    match e
    case Tick(head, skipped) =>
      Ledger(if skipped.Some? then HoleRuns.Next(s.q, Record(skipped.value)) else s.q, head,
             if s.live.Some? then s.live else Some(head), s.top)
    case Backfill(top) => s.(top := top)
    case Fill(step) => s.(q := HoleRuns.Next(s.q, step))
    case Land(n, folded, _) => s.(q := HoleRuns.Next(s.q, Commit(n, folded)))
    case Reorg(ancestor) =>
      Ledger(HoleRuns.Next(s.q, Rewind(ancestor, Clears(s, ancestor))), ancestor,
             if s.live.Some? && s.live.value > ancestor then None else s.live,
             if BelowTop(s, ancestor) then 0 else s.top)
  }

  // ----- the invariant -----

  ghost predicate Low(folds: multiset<nat>, bound: nat) { forall b: nat :: folds[b] > 0 ==> b < bound }

  ghost predicate Sound(s: Ledger) {
    && HoleRuns.Inv(s.q) && InPlace(s.q)
    && (s.live.Some? ==> s.live.value <= s.head)
    && Low(s.q.folds, Bound(s))
  }

  lemma NothingFolded(q: State, r: Hole, bound: nat)
    requires Low(q.folds, bound) && bound <= r.from
    ensures Sheltered(q, r)
  {
    hide Normalized;
  }

  lemma StillAnchored(hs: seq<Hole>, r: Hole, h: Hole)
    requires Separated(hs) && Settled(hs) && Apart(hs, r) && r.from <= r.to
    requires forall i :: 0 <= i < |hs| ==> hs[i].from != r.to + 1
    requires Anchored(hs, h)
    ensures Anchored(Normalized(hs + [r]), h)
  {
    hide Separated, Settled, Normalized, Apart;
    var k := RecordKeepsStarts(hs, r);
    var i :| 0 <= i < |hs| && Matches(hs[i], h);
    JoinedLength(hs[..k], r);
    var out, m := Normalized(hs + [r]), Joined(hs[..k], r);
    if i < k {
      assert Matches(out[i], h);
    } else {
      assert out[|m| + (i - k)] == hs[i];
    }
  }

  lemma JoinedLength(m: seq<Hole>, r: Hole)
    ensures |Joined(m, r)| >= |m|
  {
  }

  lemma SkipKeeps(s: Ledger, head: nat, r: Hole)
    requires Sound(s) && head > s.head && Skips(s, head, r) && Allowed(s, Tick(head, Some(r)))
    ensures HoleRuns.Inv(HoleRuns.Next(s.q, Record(r))) && InPlace(HoleRuns.Next(s.q, Record(r)))
    ensures HoleRuns.Next(s.q, Record(r)).folds == s.q.folds
  {
    hide Normalized, Separated, Settled, Guarded, Apart, Sheltered, Anchored, Low;
    NothingFolded(s.q, r, Bound(s));
    RecordSafeExactlyWhen(s.q, r);
    if Live(s.q) { StillAnchored(s.q.holes, r, s.q.flight.value.h); }
  }

  lemma TickKeeps(s: Ledger, head: nat, skipped: Option<Hole>)
    requires Sound(s) && Possible(s, Tick(head, skipped)) && Allowed(s, Tick(head, skipped))
    ensures Sound(After(s, Tick(head, skipped)))
  {
    hide HoleRuns.Inv, InPlace, HoleRuns.Next;
    if skipped.Some? { SkipKeeps(s, head, skipped.value); }
  }

  lemma FillKeeps(s: Ledger, step: Step)
    requires Sound(s) && Possible(s, Fill(step)) && Allowed(s, Fill(step))
    ensures Sound(After(s, Fill(step)))
  {
    HoleRuns.StepKeeps(s.q, step);
    hide HoleRuns.Inv, Low, Normalized;
    match step
    case Capture(i) => assert Matches(s.q.holes[i], Claimed(s.q.holes[i]));
    case GiveUp =>
    case Mark(_, _, _) =>
  }

  lemma LandKeeps(s: Ledger, n: nat, folded: set<nat>, bounded: bool)
    requires Sound(s) && Possible(s, Land(n, folded, bounded)) && Allowed(s, Land(n, folded, bounded))
    ensures Sound(After(s, Land(n, folded, bounded)))
  {
    HoleRuns.StepKeeps(s.q, Commit(n, folded));
    hide HoleRuns.Inv, Normalized, Advance, Progress, Anchored;
  }

  lemma ReorgKeeps(s: Ledger, ancestor: nat)
    requires Sound(s) && Possible(s, Reorg(ancestor)) && Accounted(s, ancestor)
    ensures Sound(After(s, Reorg(ancestor)))
  {
    hide Normalized, Separated, Settled, Guarded, Anchored;
    HoleRuns.StepKeeps(s.q, Rewind(ancestor, Clears(s, ancestor)));
  }

  lemma EventKeeps(s: Ledger, e: Event)
    requires Sound(s) && Possible(s, e) && Allowed(s, e)
    ensures Sound(After(s, e))
  {
    hide Sound, HoleRuns.Next;
    match e
    case Tick(head, skipped) => TickKeeps(s, head, skipped);
    case Backfill(top) => BackfillKeeps(s, top);
    case Fill(step) => FillKeeps(s, step);
    case Land(n, folded, bounded) => LandKeeps(s, n, folded, bounded);
    case Reorg(ancestor) => ReorgKeeps(s, ancestor);
  }

  lemma BackfillKeeps(s: Ledger, top: nat)
    requires Sound(s) && Possible(s, Backfill(top))
    ensures Sound(After(s, Backfill(top)))
  {
    hide HoleRuns.Inv, InPlace, Low;
  }

  // ----- whole runs -----

  ghost predicate Legal(s: Ledger, run: seq<Event>)
    decreases |run|
  {
    run == [] || (
      && Possible(s, run[0]) && Allowed(s, run[0])
      && Legal(After(s, run[0]), run[1..]))
  }

  ghost function Final(s: Ledger, run: seq<Event>): Ledger
    requires Legal(s, run)
    decreases |run|
  {
    if run == [] then s else Final(After(s, run[0]), run[1..])
  }

  lemma {:induction false} RunKeeps(s: Ledger, run: seq<Event>)
    requires Sound(s) && Legal(s, run)
    ensures Sound(Final(s, run))
    decreases |run|
  {
    hide Sound, After, Possible, Allowed;
    if run != [] {
      EventKeeps(s, run[0]);
      RunKeeps(After(s, run[0]), run[1..]);
    }
  }

  /** Any queue of disjoint ranges, just after the additive buckets were deleted. */
  ghost predicate Start(s: Ledger) {
    && Separated(s.q.holes) && Settled(s.q.holes) && s.q.flight.None? && s.q.folds == multiset{}
    && (s.live.Some? ==> s.live.value <= s.head)
  }

  /** Through any run of ticks with and without skipped ranges, fills, stale commits, marks, backfill starts
      and rewinds that pass those tests, no block is folded into the additive buckets twice by fills. */
  lemma NoBlockFoldedTwice(s: Ledger, run: seq<Event>, b: nat)
    requires Start(s) && Legal(s, run)
    ensures Final(s, run).q.folds[b] <= 1
  {
    assert Sound(s);
    hide Legal, Final;
    RunKeeps(s, run);
  }

  /** When the backfill walks down from the first live block, every rewind is accounted for: it keeps the live
      start, or it deletes the additive buckets. */
  lemma TopAtLiveStart(s: Ledger, ancestor: nat)
    requires s.live.Some? && s.live.value > 0 && s.top == s.live.value
    ensures Accounted(s, ancestor)
  {
  }

  // ----- without the tests -----

  /** Each event can happen, allowed or not. */
  ghost predicate Happens(s: Ledger, run: seq<Event>)
    decreases |run|
  {
    run == [] || (Possible(s, run[0]) && Happens(After(s, run[0]), run[1..]))
  }

  ghost function Result(s: Ledger, run: seq<Event>): Ledger
    requires Happens(s, run)
    decreases |run|
  {
    if run == [] then s else Result(After(s, run[0]), run[1..])
  }

  lemma HappensMore(s: Ledger, e: Event, run: seq<Event>)
    requires Possible(s, e) && Happens(After(s, e), run)
    ensures Happens(s, [e] + run) && Result(s, [e] + run) == Result(After(s, e), run)
  {
    hide Possible, After;
    assert ([e] + run)[1..] == run;
  }

  /** The live loop skips from the head to just above a block, and the skipped range is filled up to it. */
  function Again(head: nat, b: nat): seq<Event>
    requires head < b
  {
    [Tick(b + 2, Some(Skipped(head, b))), Fill(Capture(0)), Land(b - head, {b}, true)]
  }

  function Skipped(head: nat, b: nat): Hole { Hole(head + 1, b + 1, 0, 0, "catch up limit", Pending) }

  /** A folded block above the head, with no live start and nothing queued, is folded a second time: every way past
      the two tests that lets one arise is at fault. */
  lemma AboveHeadFoldsAgain(t: Ledger, b: nat)
    requires t.q.holes == [] && t.q.flight.None? && t.live.None? && t.head < b && t.q.folds[b] == 1
    ensures Happens(t, Again(t.head, b)) && Result(t, Again(t.head, b)).q.folds[b] == 2
  {
    hide Possible, After, Happens, Result;
    var r := Skipped(t.head, b);
    var e0, e1, e2 := Tick(b + 2, Some(r)), Fill(Capture(0)), Land(b - t.head, {b}, true);
    SkipAlone(t, r, b);
    var u := After(t, e0);
    FillAlone(u, r, b);
    ThreeHappen(t, e0, e1, e2);
  }

  lemma ThreeHappen(s: Ledger, e0: Event, e1: Event, e2: Event)
    requires Possible(s, e0) && Possible(After(s, e0), e1) && Possible(After(After(s, e0), e1), e2)
    ensures Happens(s, [e0, e1, e2]) && Result(s, [e0, e1, e2]) == After(After(After(s, e0), e1), e2)
  {
    hide Possible, After;
    var t := After(s, e0);
    var u := After(t, e1);
    HappensMore(u, e2, []);
    assert [e2] + [] == [e2];
    HappensMore(t, e1, [e2]);
    assert [e1] + [e2] == [e1, e2];
    HappensMore(s, e0, [e1, e2]);
    assert [e0] + [e1, e2] == [e0, e1, e2];
  }

  lemma SkipAlone(t: Ledger, r: Hole, b: nat)
    requires t.q.holes == [] && t.live.None? && t.head < b && r == Skipped(t.head, b)
    ensures Possible(t, Tick(b + 2, Some(r)))
    ensures After(t, Tick(b + 2, Some(r))) == Ledger(t.q.(holes := [r]), b + 2, Some(b + 2), t.top)
  {
    hide Normalized;
    AloneInQueue(r);
  }

  lemma FillAlone(u: Ledger, r: Hole, b: nat)
    requires u.q.holes == [r] && u.q.flight.None? && u.live == Some(b + 2) && r.next == 0 && r.folded == 0 && r.life == Pending
    requires r.from <= b && r.to == b + 1 && u.q.folds[b] == 1
    ensures Possible(u, Fill(Capture(0)))
    ensures var v := After(u, Fill(Capture(0)));
            var c := Land(b - r.from + 1, {b}, true);
            Possible(v, c) && After(v, c).q.folds[b] == 2
  {
    hide Normalized, Advance;
    var one: multiset<nat> := multiset({b});
    assert (u.q.folds + one)[b] == 2;
  }

  lemma AloneInQueue(r: Hole)
    requires r.from <= r.to
    ensures Normalized([] + [r]) == [r]
  {
    hide Normalized;
    var k := RecordKeepsStarts([], r);
    assert Joined([], r) == [r];
  }

  /** A rewind that keeps the buckets and leaves a folded block above its ancestor, with nothing queued, has it folded
      a second time. */
  lemma UnaccountedFoldsAgain(s: Ledger, ancestor: nat, b: nat)
    requires Sound(s) && s.q.holes == [] && s.q.flight.None?
    requires !Clears(s, ancestor) && ancestor < b && s.q.folds[b] > 0
    ensures !Accounted(s, ancestor)
    ensures Happens(s, [Reorg(ancestor)] + Again(ancestor, b))
    ensures Result(s, [Reorg(ancestor)] + Again(ancestor, b)).q.folds[b] == 2
  {
    RewindEmpty(s, ancestor, b);
    hide Possible, After, Happens, Result, Sound;
    AboveHeadFoldsAgain(After(s, Reorg(ancestor)), b);
    HappensMore(s, Reorg(ancestor), Again(ancestor, b));
  }

  lemma RewindEmpty(s: Ledger, ancestor: nat, b: nat)
    requires Sound(s) && s.q.holes == [] && s.q.flight.None?
    requires !Clears(s, ancestor) && ancestor < b && s.q.folds[b] > 0
    ensures Possible(s, Reorg(ancestor)) && !Accounted(s, ancestor)
    ensures var t := After(s, Reorg(ancestor));
            t.q.holes == [] && t.q.flight.None? && t.live.None? && t.head == ancestor && t.q.folds[b] == 1
  {
    hide Normalized;
    assert b < Bound(s);
  }

  /** A whole range filled in one batch leaves the queue. */
  lemma FilledAndGone(s: Ledger, r: Hole, n: nat, b: nat, bounded: bool)
    requires s.q.holes == [r] && s.q.flight.None? && s.q.folds == multiset{}
    requires r.next == 0 && r.folded == 0 && r.from <= b <= r.to && n == r.to - r.from + 1
    requires bounded ==> s.live.Some? && b < s.live.value
    ensures Possible(s, Fill(Capture(0)))
    ensures var t := After(s, Fill(Capture(0)));
            && Possible(t, Land(n, {b}, bounded))
            && (Allowed(t, Land(n, {b}, bounded)) <==> bounded || r.to < Bound(s))
            && After(t, Land(n, {b}, bounded)) == s.(q := State([], s.q.gen, None, multiset{b}))
  {
    hide Normalized;
    var h := Claimed(r);
    assert [r] == [] + [r] && [r][..0] == [];
    assert Advance([r], Progress(h, n), true) == [];
    EmptyQueue();
    assert multiset{} + multiset({b}) == multiset{b};
  }

  lemma EmptyQueue()
    ensures Normalized([]) == []
  {
  }

  /** Blocks 9 to 29 were skipped when the live start became 30; the backfill began at 6 on an earlier one, and 6 to 8 are
      still stored. */
  const EARLIER := Ledger(State([Hole(9, 29, 0, 0, "catch up limit", Pending)], 0, None, multiset{}), 30, Some(30), 6)

  /** The range is filled, block 10 folded; a rewind to 6 keeps the buckets, and the next skip has block 10 folded again. */
  lemma SecondRewindFoldsAgain()
    ensures Start(EARLIER) && Possible(EARLIER, Fill(Capture(0)))
    ensures var t := After(EARLIER, Fill(Capture(0)));
            && Possible(t, Land(21, {10}, true)) && Allowed(t, Land(21, {10}, true))
            && var s := After(t, Land(21, {10}, true));
            && !Accounted(s, 6) && Happens(s, [Reorg(6)] + Again(6, 10))
            && Result(s, [Reorg(6)] + Again(6, 10)).q.folds[10] == 2
  {
    hide Happens, Result, Again, After, Possible, Allowed, Start, Sound, Clears, Accounted;
    EarlierStarts();
    FilledAndGone(EARLIER, EARLIER.q.holes[0], 21, 10, true);
    FilledSound();
    UnaccountedFoldsAgain(FILLED, 6, 10);
  }

  const FILLED := Ledger(State([], 0, None, multiset{10}), 30, Some(30), 6)

  lemma EarlierStarts()
    ensures Start(EARLIER)
  {
  }

  lemma FilledSound()
    ensures Sound(FILLED) && !Clears(FILLED, 6) && FILLED.q.folds[10] == 1
  {
  }

  /** Blocks 4 to 29 were left without a state when the live start became 30, where the backfill began. */
  const STATELESS := Ledger(State([Hole(4, 29, 0, 0, "no state", Blocked)], 0, None, multiset{}), 30, Some(30), 30)

  /** A rewind to 3 deletes the buckets and the live start; the range, now above the head, is filled with no live start to
      bound it and block 10 folded; the next skip has block 10 folded again. */
  lemma FillAboveHeadFoldsAgain()
    ensures Start(STATELESS) && Possible(STATELESS, Reorg(3)) && Allowed(STATELESS, Reorg(3))
    ensures var s := After(STATELESS, Reorg(3));
            && Possible(s, Fill(Capture(0)))
            && var t := After(s, Fill(Capture(0)));
            && Possible(t, Land(26, {10}, false)) && !Allowed(t, Land(26, {10}, false))
            && var u := After(t, Land(26, {10}, false));
            && Happens(u, Again(3, 10)) && Result(u, Again(3, 10)).q.folds[10] == 2
  {
    hide Happens, Result, Again, Possible, Allowed, After, Start;
    RewindKeepsOne();
    var s := After(STATELESS, Reorg(3));
    FilledAndGone(s, STATELESS.q.holes[0], 26, 10, false);
    AboveHeadFoldsAgain(s.(q := State([], 1, None, multiset{10})), 10);
  }

  lemma RewindKeepsOne()
    ensures Start(STATELESS) && Possible(STATELESS, Reorg(3)) && Allowed(STATELESS, Reorg(3))
    ensures After(STATELESS, Reorg(3)) == Ledger(State(STATELESS.q.holes, 1, None, multiset{}), 3, None, 0)
  {
    assert BackAll(STATELESS.q.holes, 3, true) == STATELESS.q.holes;
  }
}
