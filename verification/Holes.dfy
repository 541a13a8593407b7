/** The queue of missing ranges (internal/collector/fill.go, collector.go, tick.go): how ranges are sorted
    and merged, how a fill commit advances one, and what a rewind takes back. */
module Holes {
  import opened Words
  import Sorting

  datatype Lifecycle = Pending | Retrying | Blocked

  /** Blocks [from, to] are missing; `next` is the replay's cursor, and no block below `folded` may be
      folded into a bucket again. */
  datatype Hole = Hole(from: nat, to: nat, next: nat, folded: nat, reason: string, life: Lifecycle) {
    function Start(): nat { if next > from && next <= to then next else from }
    predicate Has(b: nat) { from <= b <= to }
  }

  // ----- merging -----

  predicate Compatible(a: Hole, b: Hole) { (a.life == Blocked) == (b.life == Blocked) }

  predicate Joins(prev: Hole, h: Hole) {
    Compatible(prev, h) && prev.reason == h.reason && prev.to < MAX_U64 && h.from <= prev.to + 1
  }

  function Merged(into: Hole, h: Hole): Hole {
    into.(to := Max(into.to, h.to),
          folded := Max(into.folded, h.folded),
          life := if into.life == Retrying || h.life == Retrying then Retrying else into.life,
          next := if h.from == into.from && h.next > into.next then h.next else into.next)
  }

  predicate Less(a: Hole, b: Hole) { if a.from != b.from then a.from < b.from else a.to < b.to }

  function Insert(s: seq<Hole>, h: Hole): seq<Hole> { Sorting.Insert(Less, s, h) }

  /** A stable sort by start, then end, of the ranges that are not empty. */
  function Sort(hs: seq<Hole>): seq<Hole>
    decreases |hs|
  {
    if hs == [] then []
    else
      var h := hs[|hs| - 1];
      var s := Sort(hs[..|hs| - 1]);
      if h.to >= h.from then Insert(s, h) else s
  }

  function Joined(m: seq<Hole>, h: Hole): seq<Hole> {
    if m != [] && Joins(m[|m| - 1], h) then m[..|m| - 1] + [Merged(m[|m| - 1], h)] else m + [h]
  }

  function MergeAll(s: seq<Hole>): seq<Hole>
    decreases |s|
  {
    if s == [] then [] else Joined(MergeAll(s[..|s| - 1]), s[|s| - 1])
  }

  lemma SortMore(hs: seq<Hole>, h: Hole)
    ensures Sort(hs + [h]) == if h.to >= h.from then Insert(Sort(hs), h) else Sort(hs)
  {
    assert (hs + [h])[..|hs|] == hs;
  }

  lemma MergeMore(s: seq<Hole>, h: Hole)
    ensures MergeAll(s + [h]) == Joined(MergeAll(s), h)
  {
    assert (s + [h])[..|s|] == s;
  }

  function Normalized(hs: seq<Hole>): seq<Hole> { MergeAll(Sort(hs)) }

  // ----- progress and rewinds -----

  predicate Matches(cur: Hole, h: Hole) { cur.from == h.from && cur.to >= h.to }

  function Updated(cur: Hole, h: Hole): Hole {
    cur.(next := h.next, reason := h.reason, life := h.life, folded := Max(cur.folded, h.folded))
  }

  function Advance(hs: seq<Hole>, h: Hole, done: bool): seq<Hole>
    decreases |hs|
  {
    if hs == [] then []
    else
      var cur := hs[|hs| - 1];
      Advance(hs[..|hs| - 1], h, done) +
      if !Matches(cur, h) then [cur] else if done && cur.to == h.to then [] else [Updated(cur, h)]
  }

  function Back(h: Hole, ancestor: nat, cleared: bool): Hole {
    h.(folded := if cleared then 0 else h.folded,
       next := if h.next == 0 || h.next - 1 <= ancestor then h.next else 0)
  }

  function BackAll(hs: seq<Hole>, ancestor: nat, cleared: bool): (r: seq<Hole>)
    ensures |r| == |hs| && forall i :: 0 <= i < |hs| ==> r[i] == Back(hs[i], ancestor, cleared)
  {
    seq(|hs|, i requires 0 <= i < |hs| => Back(hs[i], ancestor, cleared))
  }

  // ----- the queue in place -----

  /** The batch's outcome for the captured hole. */
  function Progress(h: Hole, n: nat): Hole {
    h.(next := h.Start() + n, folded := Max(h.folded, h.Start() + n), life := Pending)
  }

  class Queue {
    var holes: seq<Hole>
    var generation: nat

    method Sorted(hs: seq<Hole>) returns (out: seq<Hole>)
      ensures out == Sort(hs)
    {
      hide Insert;
      out := [];
      var i := 0;
      while i < |hs|
        invariant 0 <= i <= |hs| && out == Sort(hs[..i])
      {
        hide Sort;
        SortMore(hs[..i], hs[i]);
        assert hs[..i + 1] == hs[..i] + [hs[i]];
        if hs[i].to >= hs[i].from { out := Insert(out, hs[i]); }
        i := i + 1;
      }
      assert hs[..i] == hs;
    }

    method MergedInto(m: seq<Hole>, h: Hole) returns (out: seq<Hole>)
      ensures out == Joined(m, h)
    {
      if |m| > 0 && Joins(m[|m| - 1], h) {
        out := m[..|m| - 1] + [Merged(m[|m| - 1], h)];
      } else {
        out := m + [h];
      }
    }

    /** Normalises and stores. */
    method Save(hs: seq<Hole>)
      modifies this`holes
      ensures holes == Normalized(hs)
    {
      hide Sort, Joined;
      var sorted := Sorted(hs);
      var merged: seq<Hole> := [];
      var i := 0;
      while i < |sorted|
        invariant 0 <= i <= |sorted| && merged == MergeAll(sorted[..i])
      {
        hide MergeAll;
        MergeMore(sorted[..i], sorted[i]);
        assert sorted[..i + 1] == sorted[..i] + [sorted[i]];
        merged := MergedInto(merged, sorted[i]);
        i := i + 1;
      }
      assert sorted[..i] == sorted;
      holes := merged;
    }

    method Record(h: Hole)
      modifies this`holes
      ensures holes == Normalized(old(holes) + [h])
    {
      Save(holes + [h]);
    }

    method AdvanceHole(h: Hole, done: bool)
      modifies this`holes
      ensures holes == Normalized(Advance(old(holes), h, done))
    {
      var out: seq<Hole> := [];
      var i := 0;
      while i < |holes|
        invariant 0 <= i <= |holes| && holes == old(holes) && out == Advance(holes[..i], h, done)
      {
        assert holes[..i + 1][..i] == holes[..i];
        var cur := holes[i];
        if !Matches(cur, h) {
          out := out + [cur];
        } else if !(done && cur.to == h.to) {
          out := out + [Updated(cur, h)];
        }
        i := i + 1;
      }
      assert holes[..i] == holes;
      Save(out);
    }

    /** Part of the rewind's transaction; the generation is bumped with it. */
    method RewindHoles(ancestor: nat, cleared: bool)
      modifies this
      ensures generation == old(generation) + 1
      ensures BackAll(old(holes), ancestor, cleared) == old(holes) ==> holes == old(holes)
      ensures BackAll(old(holes), ancestor, cleared) != old(holes) ==> holes == Normalized(BackAll(old(holes), ancestor, cleared))
    {
      generation := generation + 1;
      var out, changed, i := holes, false, 0;
      while i < |holes|
        invariant 0 <= i <= |holes| == |out| && holes == old(holes) && generation == old(generation) + 1
        invariant forall k :: 0 <= k < i ==> out[k] == Back(holes[k], ancestor, cleared)
        invariant forall k :: i <= k < |holes| ==> out[k] == holes[k]
        invariant changed <==> exists k :: 0 <= k < i && out[k] != holes[k]
      {
        var h := holes[i];
        if cleared && h.folded > 0 {
          out := out[i := out[i].(folded := 0)];
          changed := true;
        }
        if !(h.next == 0 || h.next - 1 <= ancestor) {
          out := out[i := out[i].(next := 0)];
          changed := true;
        }
        i := i + 1;
      }
      assert out == BackAll(holes, ancestor, cleared);
      if changed { Save(out); }
    }

    /** The part of a fill commit that concerns the queue: nothing unless the generation still stands. The
        rows folded are those at or above the captured hole's watermark. */
    method CommitFill(captured: nat, h: Hole, n: nat) returns (stale: bool)
      requires 1 <= n <= h.to - h.Start() + 1
      modifies this`holes
      ensures stale == (captured != generation)
      ensures holes == if stale then old(holes) else Normalized(Advance(old(holes), Progress(h, n), h.Start() + n > h.to))
    {
      if captured != generation { return true; }
      AdvanceHole(Progress(h, n), h.Start() + n > h.to);
      return false;
    }
  }

  // ----- what normalising keeps -----

  ghost predicate Covered(hs: seq<Hole>, b: nat) { exists i :: 0 <= i < |hs| && hs[i].Has(b) }

  /** A block already folded lies below the watermark of every range it is in. */
  ghost predicate Guards(h: Hole, folds: multiset<nat>) {
    forall b: nat :: h.Has(b) && folds[b] > 0 ==> b < h.folded
  }

  ghost predicate Guarded(hs: seq<Hole>, folds: multiset<nat>) {
    forall i :: 0 <= i < |hs| ==> Guards(hs[i], folds)
  }

  lemma InsertHas(s: seq<Hole>, h: Hole) returns (k: nat)
    ensures k <= |s| && Insert(s, h) == s[..k] + [h] + s[k..]
    ensures k > 0 ==> !Less(h, s[k - 1])
    ensures k < |s| ==> Less(h, s[k])
  {
    k := Sorting.Lands(Less, s, h);
  }

  lemma CoveredConcat(a: seq<Hole>, b: seq<Hole>, x: nat)
    ensures Covered(a + b, x) <==> Covered(a, x) || Covered(b, x)
  {
    if Covered(a, x) {
      var i :| 0 <= i < |a| && a[i].Has(x);
      assert (a + b)[i].Has(x);
    }
    if Covered(b, x) {
      var i :| 0 <= i < |b| && b[i].Has(x);
      assert (a + b)[|a| + i].Has(x);
    }
  }

  lemma CoveredOne(h: Hole, x: nat)
    ensures Covered([h], x) <==> h.Has(x)
  {
    assert h.Has(x) ==> [h][0].Has(x);
  }

  lemma {:induction false} SortKeeps(hs: seq<Hole>, folds: multiset<nat>, x: nat)
    ensures Covered(Sort(hs), x) <==> Covered(hs, x)
    ensures Guarded(hs, folds) ==> Guarded(Sort(hs), folds)
    decreases |hs|
  {
    hide Covered, Guards;
    if hs != [] {
      var front, h := hs[..|hs| - 1], hs[|hs| - 1];
      assert hs == front + [h];
      SortKeeps(front, folds, x);
      CoveredConcat(front, [h], x);
      CoveredOne(h, x);
      if h.to >= h.from {
        var s := Sort(front);
        var k := InsertHas(s, h);
        assert s == s[..k] + s[k..];
        CoveredConcat(s[..k], s[k..], x);
        CoveredConcat(s[..k], [h], x);
        CoveredConcat(s[..k] + [h], s[k..], x);
      }
    }
  }

  lemma MergedCovers(a: Hole, h: Hole, x: nat)
    requires a.from <= h.from && Joins(a, h)
    ensures Merged(a, h).Has(x) <==> a.Has(x) || h.Has(x)
  {
  }

  lemma MergedGuards(a: Hole, h: Hole, folds: multiset<nat>)
    requires a.from <= h.from && Joins(a, h) && Guards(a, folds) && Guards(h, folds)
    ensures Guards(Merged(a, h), folds)
  {
    forall b: nat | Merged(a, h).Has(b) && folds[b] > 0 ensures b < Merged(a, h).folded {
      MergedCovers(a, h, b);
    }
  }

  ghost predicate Ordered(s: seq<Hole>) { forall i, j :: 0 <= i < j < |s| ==> s[i].from <= s[j].from }

  /** One step of the merge keeps the blocks covered and the folded ones guarded. */
  lemma JoinKeeps(m: seq<Hole>, h: Hole, folds: multiset<nat>, x: nat)
    requires m != [] ==> m[|m| - 1].from <= h.from
    ensures Covered(Joined(m, h), x) <==> Covered(m, x) || h.Has(x)
    ensures Guarded(m, folds) && Guards(h, folds) ==> Guarded(Joined(m, h), folds)
  {
    hide Covered, Guards, Merged;
    CoveredOne(h, x);
    if m != [] && Joins(m[|m| - 1], h) {
      var front, a := m[..|m| - 1], m[|m| - 1];
      assert m == front + [a];
      CoveredConcat(front, [a], x);
      CoveredConcat(front, [Merged(a, h)], x);
      CoveredOne(a, x);
      CoveredOne(Merged(a, h), x);
      MergedCovers(a, h, x);
      if Guarded(m, folds) && Guards(h, folds) {
        assert Guards(m[|m| - 1], folds);
        MergedGuards(a, h, folds);
      }
    } else {
      CoveredConcat(m, [h], x);
    }
  }

  lemma JoinLast(m: seq<Hole>, h: Hole)
    requires m != [] ==> m[|m| - 1].from <= h.from
    ensures Joined(m, h) != [] && Joined(m, h)[|Joined(m, h)| - 1].from <= h.from
  {
  }

  lemma OrderedFront(s: seq<Hole>)
    requires Ordered(s) && s != []
    ensures Ordered(s[..|s| - 1]) && (|s| > 1 ==> s[|s| - 2].from <= s[|s| - 1].from)
  {
  }

  lemma {:induction false} MergeTop(s: seq<Hole>)
    requires Ordered(s)
    ensures s != [] ==> MergeAll(s) != [] && MergeAll(s)[|MergeAll(s)| - 1].from <= s[|s| - 1].from
    decreases |s|
  {
    hide Ordered, Joined;
    if s != [] {
      var front := s[..|s| - 1];
      OrderedFront(s);
      MergeTop(front);
      JoinLast(MergeAll(front), s[|s| - 1]);
    }
  }

  lemma {:induction false} MergeCovers(s: seq<Hole>, x: nat)
    requires Ordered(s)
    ensures Covered(MergeAll(s), x) <==> Covered(s, x)
    decreases |s|
  {
    hide Covered, Joined, Ordered;
    if s != [] {
      var front, h := s[..|s| - 1], s[|s| - 1];
      assert s == front + [h];
      OrderedFront(s);
      MergeTop(front);
      MergeCovers(front, x);
      JoinKeeps(MergeAll(front), h, multiset{}, x);
      CoveredConcat(front, [h], x);
      CoveredOne(h, x);
    }
  }

  lemma GuardedFront(s: seq<Hole>, folds: multiset<nat>)
    requires Guarded(s, folds) && s != []
    ensures Guarded(s[..|s| - 1], folds) && Guards(s[|s| - 1], folds)
  {
    hide Guards;
  }

  lemma {:induction false} MergeGuards(s: seq<Hole>, folds: multiset<nat>)
    requires Ordered(s) && Guarded(s, folds)
    ensures Guarded(MergeAll(s), folds)
    decreases |s|
  {
    hide Guarded, Guards, Joined, Ordered;
    if s == [] {
      GuardedNone(folds);
    } else {
      var front, h := s[..|s| - 1], s[|s| - 1];
      OrderedFront(s);
      GuardedFront(s, folds);
      MergeTop(front);
      MergeGuards(front, folds);
      JoinKeeps(MergeAll(front), h, folds, 0);
    }
  }

  lemma GuardedNone(folds: multiset<nat>)
    ensures Guarded([], folds)
  {
  }

  lemma InsertOrdered(s: seq<Hole>, h: Hole)
    requires Ordered(s)
    ensures Ordered(Insert(s, h))
  {
    hide Insert;
    var k := InsertHas(s, h);
    assert forall i :: 0 <= i < k ==> s[i].from <= h.from;
    assert forall i :: k <= i < |s| ==> h.from <= s[i].from;
    OrderedJoin(s[..k], [h]);
    OrderedJoin(s[..k] + [h], s[k..]);
  }

  lemma OrderedJoin(a: seq<Hole>, b: seq<Hole>)
    requires Ordered(a) && Ordered(b)
    requires forall i, j :: 0 <= i < |a| && 0 <= j < |b| ==> a[i].from <= b[j].from
    ensures Ordered(a + b)
  {
  }

  lemma {:induction false} SortOrdered(hs: seq<Hole>)
    ensures Ordered(Sort(hs))
    decreases |hs|
  {
    hide Ordered, Insert;
    if hs == [] {
      OrderedNone();
    } else {
      SortOrdered(hs[..|hs| - 1]);
      InsertOrdered(Sort(hs[..|hs| - 1]), hs[|hs| - 1]);
    }
  }

  lemma OrderedNone()
    ensures Ordered([])
  {
  }

  /** Normalising any ranges, overlapping or not: the same blocks are missing before and after, and a
      block already folded stays below the watermark of every range it is in. */
  lemma NormalizeKeeps(hs: seq<Hole>, folds: multiset<nat>, x: nat)
    ensures Covered(Normalized(hs), x) <==> Covered(hs, x)
    ensures Guarded(hs, folds) ==> Guarded(Normalized(hs), folds)
  {
    hide Covered, Guarded, Ordered, Sort, MergeAll;
    SortOrdered(hs);
    SortKeeps(hs, folds, x);
    MergeCovers(Sort(hs), x);
    if Guarded(hs, folds) { MergeGuards(Sort(hs), folds); }
  }

  // ----- ranges that do not overlap -----

  ghost predicate Separated(hs: seq<Hole>) {
    && (forall i :: 0 <= i < |hs| ==> hs[i].from <= hs[i].to)
    && (forall i, j :: 0 <= i < j < |hs| ==> hs[i].to < hs[j].from)
  }

  /** Neighbours that could merge have. */
  ghost predicate Settled(hs: seq<Hole>) { forall i :: 0 <= i < |hs| - 1 ==> !Joins(hs[i], hs[i + 1]) }

  lemma SeparatedFront(hs: seq<Hole>)
    requires Separated(hs) && hs != []
    ensures Separated(hs[..|hs| - 1]) && hs[|hs| - 1].from <= hs[|hs| - 1].to
    ensures |hs| > 1 ==> hs[|hs| - 2].from <= hs[|hs| - 2].to < hs[|hs| - 1].from
  {
  }

  lemma InsertLast(s: seq<Hole>, h: Hole)
    requires s != [] ==> s[|s| - 1].from < h.from
    ensures Insert(s, h) == s + [h]
  {
  }

  lemma {:induction false} SortSeparated(hs: seq<Hole>)
    requires Separated(hs)
    ensures Sort(hs) == hs
    decreases |hs|
  {
    hide Insert, Separated;
    if hs != [] {
      var front := hs[..|hs| - 1];
      SeparatedFront(hs);
      SortSeparated(front);
      InsertLast(front, hs[|hs| - 1]);
      assert hs == front + [hs[|hs| - 1]];
    }
  }

  lemma JoinSeparated(m: seq<Hole>, h: Hole)
    requires Separated(m) && Settled(m) && h.from <= h.to
    requires m != [] ==> m[|m| - 1].to < h.from
    ensures Separated(Joined(m, h)) && Settled(Joined(m, h))
    ensures Joined(m, h)[|Joined(m, h)| - 1].to == h.to
  {
    var r := Joined(m, h);
    if m != [] && Joins(m[|m| - 1], h) {
      var front, a := m[..|m| - 1], m[|m| - 1];
      assert r == front + [Merged(a, h)];
      SeparatedFront(m);
      SettledFront(m);
      SeparatedJoin(front, [Merged(a, h)]);
      hide Separated;
      forall i | 0 <= i < |r| - 1 ensures !Joins(r[i], r[i + 1]) {
        assert !Joins(m[i], m[i + 1]);
      }
    } else {
      SeparatedJoin(m, [h]);
      hide Separated;
      forall i | 0 <= i < |r| - 1 ensures !Joins(r[i], r[i + 1]) {
        if i < |m| - 1 { assert !Joins(m[i], m[i + 1]); }
      }
    }
  }

  lemma {:induction false} MergeSeparated(s: seq<Hole>)
    requires Separated(s)
    ensures Separated(MergeAll(s)) && Settled(MergeAll(s))
    ensures s != [] ==> MergeAll(s) != [] && MergeAll(s)[|MergeAll(s)| - 1].to == s[|s| - 1].to
    decreases |s|
  {
    hide Joined;
    if s != [] {
      MergeSeparated(s[..|s| - 1]);
      JoinSeparated(MergeAll(s[..|s| - 1]), s[|s| - 1]);
      JoinLast(MergeAll(s[..|s| - 1]), s[|s| - 1]);
    }
  }

  lemma {:induction false} MergeSettled(s: seq<Hole>)
    requires Settled(s)
    ensures MergeAll(s) == s
    decreases |s|
  {
    if s != [] {
      var front := s[..|s| - 1];
      MergeSettled(front);
      assert s == front + [s[|s| - 1]];
      if front != [] { assert !Joins(s[|s| - 2], s[|s| - 1]); }
    }
  }

  /** Ranges that do not overlap stay so, in order, with nothing left to merge. */
  lemma NormalizeSeparates(hs: seq<Hole>)
    requires Separated(hs)
    ensures Separated(Normalized(hs)) && Settled(Normalized(hs))
  {
    SortSeparated(hs);
    MergeSeparated(hs);
  }

  ghost predicate Apart(hs: seq<Hole>, r: Hole) { forall i :: 0 <= i < |hs| ==> hs[i].to < r.from || r.to < hs[i].from }

  /** Where a range that overlaps no other goes. */
  lemma SplitAt(hs: seq<Hole>, r: Hole, k: nat)
    requires Separated(hs) && Apart(hs, r) && r.from <= r.to && k <= |hs|
    requires k > 0 ==> !Less(r, hs[k - 1])
    requires k < |hs| ==> Less(r, hs[k])
    ensures forall i :: 0 <= i < k ==> hs[i].to < r.from
    ensures forall i :: k <= i < |hs| ==> r.to < hs[i].from
  {
    if k > 0 {
      assert hs[k - 1].to < r.from;
      forall i | 0 <= i < k ensures hs[i].to < r.from { assert i < k - 1 ==> hs[i].to < hs[k - 1].from; }
    }
    if k < |hs| {
      assert r.to < hs[k].from;
      forall i | k <= i < |hs| ensures r.to < hs[i].from { assert k < i ==> hs[k].to < hs[i].from; }
    }
  }

  lemma SeparatedJoin(a: seq<Hole>, b: seq<Hole>)
    requires Separated(a) && Separated(b)
    requires forall i, j :: 0 <= i < |a| && 0 <= j < |b| ==> a[i].to < b[j].from
    ensures Separated(a + b)
  {
  }

  lemma InsertSeparated(hs: seq<Hole>, r: Hole)
    requires Separated(hs) && Apart(hs, r) && r.from <= r.to
    ensures Separated(Insert(hs, r))
  {
    hide Insert;
    var k := InsertHas(hs, r);
    SplitAt(hs, r, k);
    SeparatedJoin(hs[..k], [r]);
    SeparatedJoin(hs[..k] + [r], hs[k..]);
  }

  lemma RecordSeparates(hs: seq<Hole>, r: Hole)
    requires Separated(hs) && Apart(hs, r) && r.from <= r.to
    ensures Separated(Normalized(hs + [r])) && Settled(Normalized(hs + [r]))
  {
    hide Insert, Sort, MergeAll, Separated, Settled;
    SortMore(hs, r);
    SortSeparated(hs);
    InsertSeparated(hs, r);
    MergeSeparated(Insert(hs, r));
  }

  /** What already is settled and does not join what comes before it is simply appended. */
  lemma {:induction false} MergeAppend(a: seq<Hole>, b: seq<Hole>)
    requires Settled(b) && (b != [] && MergeAll(a) != [] ==> !Joins(MergeAll(a)[|MergeAll(a)| - 1], b[0]))
    ensures MergeAll(a + b) == MergeAll(a) + b
    decreases |b|
  {
    hide MergeAll, Joins;
    if b == [] {
      assert a + b == a && MergeAll(a) + b == MergeAll(a);
    } else {
      var front, e := b[..|b| - 1], b[|b| - 1];
      assert b == front + [e] && a + b == a + front + [e];
      SettledFront(b);
      MergeAppend(a, front);
      MergeMore(a + front, e);
      assert MergeAll(a) + b == MergeAll(a) + front + [e];
    }
  }

  lemma SettledFront(b: seq<Hole>)
    requires Settled(b) && b != []
    ensures Settled(b[..|b| - 1]) && (|b| > 1 ==> !Joins(b[|b| - 2], b[|b| - 1]))
  {
    hide Joins;
    var front := b[..|b| - 1];
    forall i | 0 <= i < |front| - 1 ensures !Joins(front[i], front[i + 1]) { assert !Joins(b[i], b[i + 1]); }
    if |b| > 1 { assert !Joins(b[|b| - 2], b[|b| - 2 + 1]); }
  }

  lemma SettledParts(hs: seq<Hole>, k: nat)
    requires Settled(hs) && k <= |hs|
    ensures Settled(hs[..k]) && Settled(hs[k..])
  {
    hide Joins;
    forall i | 0 <= i < k - 1 ensures !Joins(hs[..k][i], hs[..k][i + 1]) { assert !Joins(hs[i], hs[i + 1]); }
    forall i | 0 <= i < |hs| - k - 1 ensures !Joins(hs[k..][i], hs[k..][i + 1]) { assert !Joins(hs[k + i], hs[k + i + 1]); }
  }

  /** Where a recorded range ends up when no entry starts just above it: it stands alone or extends the entry
      below it, and every other entry is as it was. */
  lemma RecordKeepsStarts(hs: seq<Hole>, r: Hole) returns (k: nat)
    requires Separated(hs) && Settled(hs) && Apart(hs, r) && r.from <= r.to
    requires forall i :: 0 <= i < |hs| ==> hs[i].from != r.to + 1
    ensures k <= |hs| && Normalized(hs + [r]) == Joined(hs[..k], r) + hs[k..]
    ensures forall i :: 0 <= i < k ==> Joined(hs[..k], r)[i].from == hs[i].from && Joined(hs[..k], r)[i].to >= hs[i].to
  {
    hide Insert, Sort, MergeAll, Settled;
    SortMore(hs, r);
    SortSeparated(hs);
    k := InsertHas(hs, r);
    SplitAt(hs, r, k);
    SettledParts(hs, k);
    MergeSettled(hs[..k]);
    MergeMore(hs[..k], r);
    NoJoinAbove(hs, r, k);
    MergeAppend(hs[..k] + [r], hs[k..]);
  }

  lemma NoJoinAbove(hs: seq<Hole>, r: Hole, k: nat)
    requires k <= |hs| && (forall i :: 0 <= i < k ==> hs[i].to < r.from) && r.from <= r.to
    requires forall i :: k <= i < |hs| ==> r.to < hs[i].from && hs[i].from != r.to + 1
    ensures k < |hs| ==> !Joins(Joined(hs[..k], r)[|Joined(hs[..k], r)| - 1], hs[k])
  {
  }
}
