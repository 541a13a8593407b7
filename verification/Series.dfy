/** Qualifying chart points against the gap ledger (internal/api/series.go): merged intervals searched by
    bisection agree with the union of the original ones, and ranges that have no time bounds are placed
    among the points by block number. Times are whole nanoseconds. */
module Series {
  import opened Words
  import Sorting

  /** The time between the indexed blocks on either side of a gap; it may be a single instant. */
  datatype Interval = Interval(from: int, to: int)

  ghost predicate Forward(s: seq<Interval>) { forall i :: 0 <= i < |s| ==> s[i].from <= s[i].to }

  // ----- merging -----

  predicate Less(a: Interval, b: Interval) { if a.from == b.from then a.to < b.to else a.from < b.from }

  function Insert(s: seq<Interval>, x: Interval): seq<Interval> { Sorting.Insert(Less, s, x) }

  function Sort(s: seq<Interval>): seq<Interval>
    decreases |s|
  {
    if s == [] then [] else Insert(Sort(s[..|s| - 1]), s[|s| - 1])
  }

  function Joined(m: seq<Interval>, x: Interval): seq<Interval> {
    if m == [] || x.from > m[|m| - 1].to then m + [x]
    else if x.to > m[|m| - 1].to then m[..|m| - 1] + [Interval(m[|m| - 1].from, x.to)]
    else m
  }

  function MergeSorted(s: seq<Interval>): seq<Interval>
    decreases |s|
  {
    if s == [] then [] else Joined(MergeSorted(s[..|s| - 1]), s[|s| - 1])
  }

  method MergeMissing(intervals: seq<Interval>) returns (merged: seq<Interval>)
    ensures merged == MergeSorted(Sort(intervals))
  {
    var sorted := Sort(intervals);
    hide Sort;
    merged := [];
    var i := 0;
    while i < |sorted|
      invariant 0 <= i <= |sorted| && merged == MergeSorted(sorted[..i])
    {
      assert sorted[..i + 1][..i] == sorted[..i];
      var x := sorted[i];
      if |merged| == 0 || x.from > merged[|merged| - 1].to {
        merged := merged + [x];
      } else if x.to > merged[|merged| - 1].to {
        merged := merged[..|merged| - 1] + [Interval(merged[|merged| - 1].from, x.to)];
      }
      i := i + 1;
    }
    assert sorted[..i] == sorted;
  }

  // ----- what merging keeps -----

  /** An instant belongs to a gap up to but not including its end; its closed form also holds the end. */
  predicate Holds(x: Interval, t: int) { x.from <= t < x.to }
  predicate Reaches(x: Interval, t: int) { x.from <= t <= x.to }

  ghost predicate Missing(s: seq<Interval>, t: int) { exists i :: 0 <= i < |s| && Holds(s[i], t) }
  ghost predicate Touched(s: seq<Interval>, t: int) { exists i :: 0 <= i < |s| && Reaches(s[i], t) }

  /** The same instants are missing, and the same are touched. */
  ghost predicate Same(a: seq<Interval>, b: seq<Interval>) {
    && (forall t :: Missing(a, t) <==> Missing(b, t))
    && (forall t :: Touched(a, t) <==> Touched(b, t))
  }

  lemma MissingConcat(a: seq<Interval>, b: seq<Interval>, t: int)
    ensures Missing(a + b, t) <==> Missing(a, t) || Missing(b, t)
    ensures Touched(a + b, t) <==> Touched(a, t) || Touched(b, t)
  {
    if Missing(a, t) {
      var i :| 0 <= i < |a| && Holds(a[i], t);
      assert Holds((a + b)[i], t);
    }
    if Missing(b, t) {
      var i :| 0 <= i < |b| && Holds(b[i], t);
      assert Holds((a + b)[|a| + i], t);
    }
    if Touched(a, t) {
      var i :| 0 <= i < |a| && Reaches(a[i], t);
      assert Reaches((a + b)[i], t);
    }
    if Touched(b, t) {
      var i :| 0 <= i < |b| && Reaches(b[i], t);
      assert Reaches((a + b)[|a| + i], t);
    }
  }

  lemma MissingOne(x: Interval, t: int)
    ensures (Missing([x], t) <==> Holds(x, t)) && (Touched([x], t) <==> Reaches(x, t))
  {
    assert Holds(x, t) ==> Holds([x][0], t);
    assert Reaches(x, t) ==> Reaches([x][0], t);
  }

  lemma InsertSame(s: seq<Interval>, x: Interval, t: int)
    ensures Missing(Insert(s, x), t) <==> Missing(s, t) || Holds(x, t)
    ensures Touched(Insert(s, x), t) <==> Touched(s, t) || Reaches(x, t)
  {
    hide Missing, Touched;
    var k := Sorting.Lands(Less, s, x);
    MissingOne(x, t);
    assert s == s[..k] + s[k..];
    MissingConcat(s[..k], s[k..], t);
    MissingConcat(s[..k], [x], t);
    MissingConcat(s[..k] + [x], s[k..], t);
  }

  lemma {:induction false} SortSame(s: seq<Interval>, t: int)
    ensures Missing(Sort(s), t) <==> Missing(s, t)
    ensures Touched(Sort(s), t) <==> Touched(s, t)
    decreases |s|
  {
    hide Missing, Touched, Insert;
    if s != [] {
      var front, x := s[..|s| - 1], s[|s| - 1];
      assert s == front + [x];
      SortSame(front, t);
      InsertSame(Sort(front), x, t);
      MissingConcat(front, [x], t);
      MissingOne(x, t);
    }
  }

  lemma JoinSame(m: seq<Interval>, x: Interval, t: int)
    requires m != [] ==> m[|m| - 1].from <= x.from && m[|m| - 1].from <= m[|m| - 1].to
    requires x.from <= x.to
    ensures Missing(Joined(m, x), t) <==> Missing(m, t) || Holds(x, t)
    ensures Touched(Joined(m, x), t) <==> Touched(m, t) || Reaches(x, t)
  {
    hide Missing, Touched;
    MissingOne(x, t);
    if m == [] || x.from > m[|m| - 1].to {
      MissingConcat(m, [x], t);
    } else {
      var front, z := m[..|m| - 1], m[|m| - 1];
      assert m == front + [z];
      MissingConcat(front, [z], t);
      MissingOne(z, t);
      var wide := Interval(z.from, x.to);
      MissingConcat(front, [wide], t);
      MissingOne(wide, t);
    }
  }

  ghost predicate Ordered(s: seq<Interval>) {
    && Forward(s)
    && forall i, j :: 0 <= i < j < |s| ==> s[i].from <= s[j].from
  }

  lemma InsertOrdered(s: seq<Interval>, x: Interval)
    requires Ordered(s) && x.from <= x.to
    ensures Ordered(Insert(s, x))
  {
    hide Less;
    var k := Sorting.Lands(Less, s, x);
    assert Insert(s, x) == s[..k] + [x] + s[k..];
    NotLess(x, s, k);
    OrderedJoin(s[..k], [x]);
    OrderedJoin(s[..k] + [x], s[k..]);
  }

  lemma NotLess(x: Interval, s: seq<Interval>, k: nat)
    requires Ordered(s) && k <= |s| && (k > 0 ==> !Less(x, s[k - 1])) && (k < |s| ==> Less(x, s[k]))
    ensures forall i :: 0 <= i < k ==> s[i].from <= x.from
    ensures forall i :: k <= i < |s| ==> x.from <= s[i].from
  {
  }

  lemma OrderedJoin(a: seq<Interval>, b: seq<Interval>)
    requires Ordered(a) && Ordered(b)
    requires forall i, j :: 0 <= i < |a| && 0 <= j < |b| ==> a[i].from <= b[j].from
    ensures Ordered(a + b)
  {
  }

  lemma {:induction false} SortOrdered(s: seq<Interval>)
    requires Forward(s)
    ensures Ordered(Sort(s))
    decreases |s|
  {
    hide Insert, Ordered;
    if s == [] {
      OrderedNone();
    } else {
      SortOrdered(s[..|s| - 1]);
      InsertOrdered(Sort(s[..|s| - 1]), s[|s| - 1]);
    }
  }

  lemma OrderedNone()
    ensures Ordered([])
  {
  }

  /** Merged intervals are in order with time between them. */
  ghost predicate Spaced(s: seq<Interval>) {
    && Forward(s)
    && forall i, j :: 0 <= i < j < |s| ==> s[i].to < s[j].from
  }

  lemma JoinSpaced(m: seq<Interval>, x: Interval)
    requires Spaced(m) && x.from <= x.to && (m != [] ==> m[|m| - 1].from <= x.from)
    ensures Spaced(Joined(m, x)) && Joined(m, x) != []
    ensures Joined(m, x)[|Joined(m, x)| - 1].from <= x.from
  {
  }

  lemma OrderedFront(s: seq<Interval>)
    requires Ordered(s) && s != []
    ensures Ordered(s[..|s| - 1]) && s[|s| - 1].from <= s[|s| - 1].to
    ensures |s| > 1 ==> s[|s| - 2].from <= s[|s| - 1].from
  {
  }

  lemma {:induction false} MergeFacts(s: seq<Interval>, t: int)
    requires Ordered(s)
    ensures Spaced(MergeSorted(s)) && (s != [] ==> MergeSorted(s) != [] && MergeSorted(s)[|MergeSorted(s)| - 1].from <= s[|s| - 1].from)
    ensures Missing(MergeSorted(s), t) <==> Missing(s, t)
    ensures Touched(MergeSorted(s), t) <==> Touched(s, t)
    decreases |s|
  {
    hide Missing, Touched, Joined, Ordered, Spaced;
    if s == [] {
      SpacedNone();
    } else {
      var front, x := s[..|s| - 1], s[|s| - 1];
      assert s == front + [x];
      OrderedFront(s);
      MergeFacts(front, t);
      var m := MergeSorted(front);
      assert m != [] ==> m[|m| - 1].from <= m[|m| - 1].to by { LastForward(m); }
      JoinSpaced(m, x);
      JoinSame(m, x, t);
      MissingConcat(front, [x], t);
      MissingOne(x, t);
    }
  }

  lemma SpacedNone()
    ensures Spaced([])
  {
  }

  lemma LastForward(m: seq<Interval>)
    requires Spaced(m)
    ensures m != [] ==> m[|m| - 1].from <= m[|m| - 1].to
  {
  }

  /** Merging keeps every missing and every touched instant, and leaves time between the intervals. */
  lemma MergeKeepsUnion(s: seq<Interval>)
    requires Forward(s)
    ensures Spaced(MergeSorted(Sort(s))) && Same(s, MergeSorted(Sort(s)))
  {
    hide Missing, Touched, MergeSorted, Sort, Ordered, Spaced;
    SortOrdered(s);
    MergeFacts(Sort(s), 0);
    forall t ensures (Missing(s, t) <==> Missing(MergeSorted(Sort(s)), t)) && (Touched(s, t) <==> Touched(MergeSorted(Sort(s)), t)) {
      SortSame(s, t);
      MergeFacts(Sort(s), t);
    }
  }

  // ----- measuring a point's window -----

  /** The missing instants of a window: their number is the missing time. */
  ghost function Instants(s: seq<Interval>, start: int, end: int): set<int> {
    set t | start <= t < end && Missing(s, t)
  }

  /** Some gap, even one of no duration, meets the window. */
  ghost predicate Meets(s: seq<Interval>, start: int, end: int) { exists t :: start <= t < end && Touched(s, t) }

  function Overlap(x: Interval, start: int, end: int): nat { Max(Min(end, x.to) - Max(start, x.from), 0) }

  ghost function Span(a: int, b: int): (r: set<int>)
    ensures forall t :: t in r <==> a <= t < b
    decreases b - a
  {
    if a < b then Span(a, b - 1) + {b - 1} else {}
  }

  lemma {:induction false} SpanSize(a: int, b: int)
    ensures |Span(a, b)| == Max(b - a, 0)
    decreases b - a
  {
    if a < b {
      SpanSize(a, b - 1);
    }
  }

  ghost function Total(s: seq<Interval>, start: int, end: int): nat
    decreases |s|
  {
    if s == [] then 0 else Total(s[..|s| - 1], start, end) + Overlap(s[|s| - 1], start, end)
  }

  /** Intervals with time between them can be measured one by one. */
  lemma {:induction false} TotalIsUnion(s: seq<Interval>, start: int, end: int)
    requires Spaced(s)
    ensures Total(s, start, end) == |Instants(s, start, end)|
    decreases |s|
  {
    if s == [] {
      assert Instants(s, start, end) == {};
    } else {
      var front, x := s[..|s| - 1], s[|s| - 1];
      assert Spaced(front);
      TotalIsUnion(front, start, end);
      var own := Span(Max(start, x.from), Min(end, x.to));
      SpanSize(Max(start, x.from), Min(end, x.to));
      SplitInstants(s, start, end);
      assert Instants(front, start, end) !! own by { Disjoint(s, start, end); }
    }
  }

  lemma SplitInstants(s: seq<Interval>, start: int, end: int)
    requires s != []
    ensures var x := s[|s| - 1];
            Instants(s, start, end) == Instants(s[..|s| - 1], start, end) + Span(Max(start, x.from), Min(end, x.to))
  {
    var front, x := s[..|s| - 1], s[|s| - 1];
    assert s == front + [x];
    forall t: int ensures Missing(s, t) <==> Missing(front, t) || Holds(x, t) {
      MissingConcat(front, [x], t);
      MissingOne(x, t);
    }
  }

  lemma Disjoint(s: seq<Interval>, start: int, end: int)
    requires Spaced(s) && s != []
    ensures var x := s[|s| - 1]; Instants(s[..|s| - 1], start, end) !! Span(Max(start, x.from), Min(end, x.to))
  {
    var front, x := s[..|s| - 1], s[|s| - 1];
    forall t | t in Instants(front, start, end) ensures t < x.from {
      var i :| 0 <= i < |front| && Holds(front[i], t);
      assert front[i] == s[i];
    }
  }

  /** sort.Search for the first interval that ends at or after the window's start. */
  method FirstEnding(s: seq<Interval>, start: int) returns (first: nat)
    requires Spaced(s)
    ensures first <= |s|
    ensures forall i :: 0 <= i < first ==> s[i].to < start
    ensures forall i :: first <= i < |s| ==> s[i].to >= start
  {
    var i, j := 0, |s|;
    while i < j
      invariant 0 <= i <= j <= |s|
      invariant forall k :: 0 <= k < i ==> s[k].to < start
      invariant forall k :: j <= k < |s| ==> s[k].to >= start
    {
      var h := (i + j) / 2;
      if s[h].to < start { i := h + 1; } else { j := h; }
    }
    first := i;
  }

  /** The scan of one point's window over the merged intervals: what it finds is what measuring the union
      of the intervals would. */
  method Scan(s: seq<Interval>, start: int, end: int) returns (known: bool, missing: nat)
    requires Spaced(s) && start < end
    ensures known <==> Meets(s, start, end)
    ensures missing == |Instants(s, start, end)| <= end - start
  {
    hide Total, Instants, Meets;
    var first := FirstEnding(s, start);
    known, missing := false, 0;
    TotalBefore(s, first, start, end);
    var i := first;
    while i < |s| && s[i].from < end
      invariant first <= i <= |s|
      invariant known <==> first < i
      invariant forall k :: first <= k < i ==> s[k].from < end
      invariant missing == Total(s[..i], start, end)
    {
      known := true;
      var from, to := Max(start, s[i].from), Min(end, s[i].to);
      if to > from { missing := missing + (to - from); }
      TotalMore(s, i, start, end);
      i := i + 1;
    }
    TotalAfter(s, i, start, end);
    TotalIsUnion(s, start, end);
    WindowBounds(s, start, end);
    if known {
      OneMeets(s, first, start, end);
    } else {
      NoneMeets(s, first, start, end);
    }
  }

  lemma TotalMore(s: seq<Interval>, i: nat, start: int, end: int)
    requires i < |s|
    ensures Total(s[..i + 1], start, end) == Total(s[..i], start, end) + Overlap(s[i], start, end)
  {
    assert s[..i + 1][..i] == s[..i];
  }

  lemma OneMeets(s: seq<Interval>, i: nat, start: int, end: int)
    requires i < |s| && s[i].from <= s[i].to && s[i].to >= start && s[i].from < end && start < end
    ensures Meets(s, start, end)
  {
    var t := Max(start, s[i].from);
    assert Reaches(s[i], t);
    assert Touched(s, t);
  }

  lemma WindowBounds(s: seq<Interval>, start: int, end: int)
    requires start < end
    ensures |Instants(s, start, end)| <= end - start
  {
    SpanSize(start, end);
    SubsetSize(Instants(s, start, end), Span(start, end));
  }

  lemma SubsetSize(a: set<int>, b: set<int>)
    requires a <= b
    ensures |a| <= |b|
  {
    assert b == a + (b - a);
  }

  lemma NoneMeets(s: seq<Interval>, first: nat, start: int, end: int)
    requires first <= |s| && Spaced(s) && (first < |s| ==> s[first].from >= end)
    requires forall i :: 0 <= i < first ==> s[i].to < start
    ensures !Meets(s, start, end)
  {
    forall i | first <= i < |s| ensures s[i].from >= end {
      assert i > first ==> s[first].to < s[i].from;
    }
  }

  lemma {:induction false} TotalBefore(s: seq<Interval>, n: nat, start: int, end: int)
    requires n <= |s| && forall i :: 0 <= i < n ==> s[i].to < start
    ensures Total(s[..n], start, end) == 0
  {
    if n > 0 {
      TotalBefore(s, n - 1, start, end);
      assert s[..n][..n - 1] == s[..n - 1];
    }
  }

  lemma {:induction false} TotalAfter(s: seq<Interval>, n: nat, start: int, end: int)
    requires n <= |s| && Spaced(s) && (n < |s| ==> s[n].from >= end)
    ensures Total(s, start, end) == Total(s[..n], start, end)
    decreases |s|
  {
    if n == |s| {
      assert s[..n] == s;
    } else {
      var front := s[..|s| - 1];
      assert s[|s| - 1].from >= end by { assert n < |s| - 1 ==> s[n].to < s[|s| - 1].from; }
      TotalAfter(front, n, start, end);
      assert front[..n] == s[..n];
    }
  }

  // ----- the ledger -----

  /** A durable missing range: times are those of the blocks just below and just above it. */
  datatype MissingRange = MissingRange(from: nat, to: nat, cursor: nat, predecessorAt: Option<int>, cursorAt: Option<int>,
                                       successorAt: Option<int>)

  /** The blocks still missing, and the time of the block before the first of them. */
  function Suffix(r: MissingRange): nat { if r.cursor > r.from then r.cursor else r.from }
  function Lower(r: MissingRange): Option<int> { if r.cursor > r.from then r.cursorAt else r.predecessorAt }

  predicate Active(r: MissingRange) { Suffix(r) <= r.to }

  predicate Bounded(r: MissingRange) {
    Active(r) && Lower(r).Some? && r.successorAt.Some? && r.successorAt.value >= Lower(r).value
  }

  /** A range no two usable times bound, by block number. */
  datatype BlockSpan = BlockSpan(from: nat, to: nat)

  function TimesOf(rs: seq<MissingRange>): (out: seq<Interval>)
    ensures Forward(out)
    decreases |rs|
  {
    if rs == [] then []
    else
      var r := rs[|rs| - 1];
      TimesOf(rs[..|rs| - 1]) + if Bounded(r) then [Interval(Lower(r).value, r.successorAt.value)] else []
  }

  function SpansOf(rs: seq<MissingRange>): (out: seq<BlockSpan>)
    ensures forall i :: 0 <= i < |out| ==> out[i].from <= out[i].to
    decreases |rs|
  {
    if rs == [] then []
    else
      var r := rs[|rs| - 1];
      SpansOf(rs[..|rs| - 1]) + if Active(r) && !Bounded(r) then [BlockSpan(Suffix(r), r.to)] else []
  }

  method NewTimeline(rs: seq<MissingRange>) returns (bounded: seq<Interval>, unlocated: seq<BlockSpan>)
    ensures Spaced(bounded) && Same(TimesOf(rs), bounded) && unlocated == SpansOf(rs)
  {
    var times: seq<Interval> := [];
    unlocated := [];
    var i := 0;
    while i < |rs|
      invariant 0 <= i <= |rs| && times == TimesOf(rs[..i]) && unlocated == SpansOf(rs[..i])
    {
      assert rs[..i + 1][..i] == rs[..i];
      var r := rs[i];
      var start, lower := r.from, r.predecessorAt;
      if r.cursor > r.from { start, lower := r.cursor, r.cursorAt; }
      if start <= r.to {
        if lower.Some? && r.successorAt.Some? && r.successorAt.value >= lower.value {
          times := times + [Interval(lower.value, r.successorAt.value)];
        } else {
          unlocated := unlocated + [BlockSpan(start, r.to)];
        }
      }
      i := i + 1;
    }
    assert rs[..i] == rs;
    MergeKeepsUnion(times);
    bounded := MergeMissing(times);
  }

  // ----- qualifying points -----

  datatype Completeness = Complete | Partial | Unknown

  datatype Point = Point(t: int, completeness: Completeness, coverage: Option<real>, gasUsed: nat, gasPerSecond: nat,
                         posterGas: Option<nat>, computePerSecond: Option<nat>)

  const SECOND: int := 1_000_000_000

  /** What a point becomes, given whether a gap meets its window, how much of it is missing, and whether a
      range without times may reach it. */
  function Qualified(p: Point, known: bool, missing: nat, uncertain: bool, width: int, measure: bool): Point
    requires 0 < width && missing <= width
  {
    if !known && !uncertain then p
    else
      var q := p.(completeness := if known then Partial else if p.completeness == Complete then Unknown else p.completeness);
      if !measure then q
      else if uncertain || p.coverage.None? || p.coverage.value < 1.0 then q.(coverage := None)
      else Measured(q, width - missing, width)
  }

  function Measured(p: Point, covered: nat, width: int): Point
    requires 0 < width
  {
    var q := p.(coverage := Some(covered as real / width as real));
    if covered == 0 then q.(gasPerSecond := 0, computePerSecond := if p.computePerSecond.Some? then Some(0) else None)
    else
      var seconds := Max(covered / SECOND, 1);
      q.(gasPerSecond := p.gasUsed / seconds,
         computePerSecond := if p.computePerSecond.Some? && p.posterGas.Some? && p.posterGas.value <= p.gasUsed
                             then Some((p.gasUsed - p.posterGas.value) / seconds) else p.computePerSecond)
  }

  ghost function MissingTime(s: seq<Interval>, start: int, width: int): (r: nat)
    requires width > 0
    ensures r <= width
  {
    WindowBounds(s, start, start + width);
    |Instants(s, start, start + width)|
  }

  lemma SameMeasure(a: seq<Interval>, b: seq<Interval>, start: int, end: int)
    requires Same(a, b)
    ensures Instants(a, start, end) == Instants(b, start, end) && (Meets(a, start, end) <==> Meets(b, start, end))
  {
    hide Missing, Touched;
  }

  /** The times of the points, which stay. */
  function Seconds(ps: seq<Point>): (r: seq<int>)
    ensures |r| == |ps| && forall i :: 0 <= i < |r| ==> r[i] == ps[i].t
  {
    seq(|ps|, i requires 0 <= i < |ps| => ps[i].t)
  }

  ghost function Outcome(rs: seq<MissingRange>, ts: seq<int>, numbers: seq<nat>, i: nat, p: Point, width: int, measure: bool): Point
    requires width > 0 && i < |ts|
  {
    var start := p.t * SECOND;
    Qualified(p, Meets(TimesOf(rs), start, start + width), MissingTime(TimesOf(rs), start, width),
              Uncertain(ts, numbers, SpansOf(rs), i), width, measure)
  }

  /** Each point is qualified by the union of the original gaps, whatever merging and bisection did, and
      by the ranges that can only be placed by block number. */
  method Qualify(rs: seq<MissingRange>, points: array<Point>, numbers: seq<nat>, width: int, measure: bool)
    requires width > 0
    modifies points
    ensures forall i :: 0 <= i < points.Length ==>
              points[i] == Outcome(rs, Seconds(old(points[..])), numbers, i, old(points[i]), width, measure)
  {
    hide Qualified, Uncertain, TimesOf, SpansOf;
    var bounded, unlocated := NewTimeline(rs);
    ghost var ts := Seconds(points[..]);
    var marks := UnlocatedPoints(Seconds(points[..]), numbers, unlocated);
    var i := 0;
    while i < points.Length
      invariant 0 <= i <= points.Length
      invariant forall k :: i <= k < points.Length ==> points[k] == old(points[k])
      invariant forall k :: 0 <= k < i ==> points[k] == Outcome(rs, ts, numbers, k, old(points[k]), width, measure)
      invariant marks.Length == points.Length
      invariant forall k :: 0 <= k < points.Length ==> (marks[k] <==> Uncertain(ts, numbers, unlocated, k))
    {
      var start := points[i].t * SECOND;
      var known, missing := Scan(bounded, start, start + width);
      SameMeasure(TimesOf(rs), bounded, start, start + width);
      points[i] := Qualified(points[i], known, missing, marks[i], width, measure);
      i := i + 1;
    }
  }

  // ----- ranges placed by block number -----

  predicate Sorted(s: seq<nat>) { forall i, j :: 0 <= i < j < |s| ==> s[i] <= s[j] }

  /** A missing block may lie in the window of point i: above what the point before holds, and below what
      the point after holds. */
  predicate CanHold(numbers: seq<nat>, i: nat, b: nat)
    requires i < |numbers|
  {
    (i == 0 || numbers[i - 1] < b) && (i == |numbers| - 1 || b < numbers[i + 1])
  }

  /** The points a span is placed at: from the last whose watermark is not above its start to the first
      whose watermark reaches its end. */
  predicate Near(numbers: seq<nat>, x: BlockSpan, j: nat)
    requires j < |numbers|
  {
    && (j == 0 || numbers[j - 1] < x.to)
    && (j == |numbers| - 1 || numbers[j + 1] > x.from || numbers[j] >= x.to)
  }

  /** Every point some missing block may lie in is among them. */
  lemma CanHoldIsNear(numbers: seq<nat>, x: BlockSpan, i: nat, b: nat)
    requires i < |numbers| && x.from <= b <= x.to && CanHold(numbers, i, b)
    ensures Near(numbers, x, i)
  {
  }

  /** All points from one to the other share a second. */
  ghost predicate SameSecond(ts: seq<int>, i: nat, j: nat)
    requires i < |ts| && j < |ts|
  {
    forall k :: Min(i, j) <= k <= Max(i, j) ==> ts[k] == ts[i]
  }

  ghost predicate Hit(ts: seq<int>, numbers: seq<nat>, x: BlockSpan, i: nat)
    requires i < |ts| == |numbers|
  {
    exists j: nat :: j < |ts| && Near(numbers, x, j) && SameSecond(ts, i, j)
  }

  ghost predicate AnyHit(ts: seq<int>, numbers: seq<nat>, spans: seq<BlockSpan>, i: nat)
    requires i < |ts| == |numbers|
  {
    exists m :: 0 <= m < |spans| && Hit(ts, numbers, spans[m], i)
  }

  /** A point is uncertain when a span is placed at it or at a point of its second, and always when the
      points' watermarks cannot place anything. */
  ghost predicate Uncertain(ts: seq<int>, numbers: seq<nat>, spans: seq<BlockSpan>, i: nat)
    requires i < |ts|
  {
    spans != [] && (|numbers| != |ts| || !Sorted(numbers) || AnyHit(ts, numbers, spans, i))
  }

  /** Nothing a range without times can touch by block number goes unmarked, nor any point of its second. */
  lemma TouchedIsUncertain(ts: seq<int>, numbers: seq<nat>, spans: seq<BlockSpan>, m: nat, b: nat, i: nat, sibling: nat)
    requires m < |spans| && spans[m].from <= b <= spans[m].to && i < |ts| && sibling < |ts|
    requires |numbers| == |ts| ==> CanHold(numbers, i, b)
    requires SameSecond(ts, sibling, i)
    ensures Uncertain(ts, numbers, spans, sibling)
  {
    if |numbers| == |ts| && Sorted(numbers) {
      CanHoldIsNear(numbers, spans[m], i, b);
      assert Hit(ts, numbers, spans[m], sibling);
    }
  }

  method FirstAtLeast(numbers: seq<nat>, x: nat) returns (first: nat)
    requires Sorted(numbers)
    ensures first <= |numbers|
    ensures forall i :: 0 <= i < first ==> numbers[i] < x
    ensures forall i :: first <= i < |numbers| ==> numbers[i] >= x
  {
    var i, j := 0, |numbers|;
    while i < j
      invariant 0 <= i <= j <= |numbers|
      invariant forall k :: 0 <= k < i ==> numbers[k] < x
      invariant forall k :: j <= k < |numbers| ==> numbers[k] >= x
    {
      var h := (i + j) / 2;
      if numbers[h] < x { i := h + 1; } else { j := h; }
    }
    first := i;
  }

  method FirstAbove(numbers: seq<nat>, x: nat) returns (first: nat)
    requires Sorted(numbers)
    ensures first <= |numbers|
    ensures forall i :: 0 <= i < first ==> numbers[i] <= x
    ensures forall i :: first <= i < |numbers| ==> numbers[i] > x
  {
    first := FirstAtLeast(numbers, x + 1);
  }

  method Place(numbers: seq<nat>, x: BlockSpan) returns (lo: nat, hi: nat)
    requires Sorted(numbers) && numbers != []
    ensures lo <= hi < |numbers|
    ensures forall j :: 0 <= j < |numbers| ==> (Near(numbers, x, j) <==> lo <= j <= hi)
  {
    var last := |numbers| - 1;
    var h := FirstAtLeast(numbers, x.to);
    hi := Min(h, last);
    var f: int := FirstAbove(numbers, x.from);
    lo := Min(Max(f - 1, 0), hi);
  }

  /** The run of points a span marks, widened to whole seconds. */
  method Widen(ts: seq<int>, lo: nat, hi: nat) returns (a: nat, b: nat)
    requires lo <= hi < |ts|
    ensures a <= lo && hi <= b < |ts|
    ensures SameSecond(ts, a, lo) && SameSecond(ts, b, hi)
    ensures (a > 0 ==> ts[a - 1] != ts[a]) && (b < |ts| - 1 ==> ts[b + 1] != ts[b])
  {
    a, b := lo, hi;
    while a > 0 && ts[a - 1] == ts[a]
      invariant a <= lo && SameSecond(ts, a, lo)
    {
      a := a - 1;
    }
    while b < |ts| - 1 && ts[b + 1] == ts[b]
      invariant hi <= b < |ts| && SameSecond(ts, b, hi)
    {
      b := b + 1;
    }
  }

  lemma RunIsHit(ts: seq<int>, numbers: seq<nat>, x: BlockSpan, lo: nat, hi: nat, a: nat, b: nat, i: nat)
    requires |ts| == |numbers| && i < |ts| && a <= lo <= hi <= b < |ts|
    requires forall j :: 0 <= j < |numbers| ==> (Near(numbers, x, j) <==> lo <= j <= hi)
    requires SameSecond(ts, a, lo) && SameSecond(ts, b, hi)
    requires (a > 0 ==> ts[a - 1] != ts[a]) && (b < |ts| - 1 ==> ts[b + 1] != ts[b])
    ensures Hit(ts, numbers, x, i) <==> a <= i <= b
  {
    if a <= i <= b {
      var j := if i < lo then lo else if i > hi then hi else i;
      assert SameSecond(ts, i, j);
      assert Near(numbers, x, j);
    }
  }

  method UnlocatedPoints(ts: seq<int>, numbers: seq<nat>, spans: seq<BlockSpan>) returns (out: array<bool>)
    ensures fresh(out) && out.Length == |ts|
    ensures forall i :: 0 <= i < |ts| ==> (out[i] <==> Uncertain(ts, numbers, spans, i))
  {
    out := new bool[|ts|](_ => false);
    if |spans| == 0 || |ts| == 0 { return; }
    if |numbers| != |ts| || !Sorted(numbers) {
      var i := 0;
      while i < |ts|
        invariant 0 <= i <= |ts| && fresh(out) && forall k :: 0 <= k < i ==> out[k]
      {
        out[i] := true;
        i := i + 1;
      }
      return;
    }
    var m := 0;
    while m < |spans|
      invariant 0 <= m <= |spans| && fresh(out)
      invariant forall i :: 0 <= i < |ts| ==> (out[i] <==> AnyHit(ts, numbers, spans[..m], i))
    {
      MarkSpan(ts, numbers, spans[m], out);
      forall i | 0 <= i < |ts|
        ensures AnyHit(ts, numbers, spans[..m + 1], i) <==> AnyHit(ts, numbers, spans[..m], i) || Hit(ts, numbers, spans[m], i)
      {
        OneMoreSpan(ts, numbers, spans, m, i);
      }
      m := m + 1;
    }
    assert spans[..m] == spans;
  }

  lemma OneMoreSpan(ts: seq<int>, numbers: seq<nat>, spans: seq<BlockSpan>, m: nat, i: nat)
    requires m < |spans| && i < |ts| == |numbers|
    ensures AnyHit(ts, numbers, spans[..m + 1], i) <==> AnyHit(ts, numbers, spans[..m], i) || Hit(ts, numbers, spans[m], i)
  {
    hide Hit;
    if AnyHit(ts, numbers, spans[..m], i) {
      var k :| 0 <= k < m && Hit(ts, numbers, spans[..m][k], i);
      assert Hit(ts, numbers, spans[..m + 1][k], i);
    }
    if Hit(ts, numbers, spans[m], i) { assert Hit(ts, numbers, spans[..m + 1][m], i); }
    if AnyHit(ts, numbers, spans[..m + 1], i) {
      var k :| 0 <= k < m + 1 && Hit(ts, numbers, spans[..m + 1][k], i);
      assert k < m ==> Hit(ts, numbers, spans[..m][k], i);
    }
  }

  method MarkSpan(ts: seq<int>, numbers: seq<nat>, x: BlockSpan, out: array<bool>)
    requires |ts| == |numbers| == out.Length && Sorted(numbers) && ts != []
    modifies out
    ensures forall i :: 0 <= i < |ts| ==> (out[i] <==> old(out[i]) || Hit(ts, numbers, x, i))
  {
    var lo, hi := Place(numbers, x);
    var a, b := Widen(ts, lo, hi);
    forall i | 0 <= i < |ts| ensures Hit(ts, numbers, x, i) <==> a <= i <= b {
      RunIsHit(ts, numbers, x, lo, hi, a, b, i);
    }
    var i := a;
    while i <= b
      invariant a <= i <= b + 1
      invariant forall k :: 0 <= k < |ts| ==> (out[k] <==> old(out[k]) || a <= k < i)
    {
      out[i] := true;
      i := i + 1;
    }
  }
}
