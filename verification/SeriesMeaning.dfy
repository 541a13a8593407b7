/** What a qualified chart point says, in terms of the gap ledger alone (internal/api/series.go). */
module SeriesMeaning {
  import opened Words
  import opened Series

  // ----- the ledger -----

  /** The times on either side of what is still missing of a range: from its cursor on once that has moved. */
  ghost predicate Located(r: MissingRange, x: Interval) {
    && r.successorAt == Some(x.to) && x.from <= x.to
    && (r.cursor > r.from ==> r.cursor <= r.to && r.cursorAt == Some(x.from))
    && (r.cursor <= r.from ==> r.from <= r.to && r.predecessorAt == Some(x.from))
  }

  /** Blocks of a range that are still missing. */
  ghost predicate StillMissing(r: MissingRange, b: nat) { r.from <= b <= r.to && (r.cursor > r.from ==> r.cursor <= b) }

  ghost predicate ByNumber(r: MissingRange, y: BlockSpan) {
    (forall b: nat :: StillMissing(r, b) <==> y.from <= b <= y.to) && y.from <= y.to && forall x: Interval :: !Located(r, x)
  }

  lemma LocatedExactly(r: MissingRange, x: Interval)
    ensures Located(r, x) <==> Bounded(r) && x == Interval(Lower(r).value, r.successorAt.value)
  {
  }

  lemma ByNumberExactly(r: MissingRange, y: BlockSpan)
    ensures ByNumber(r, y) <==> Active(r) && !Bounded(r) && y == BlockSpan(Suffix(r), r.to)
  {
    if ByNumber(r, y) {
      assert StillMissing(r, y.from) && StillMissing(r, y.to);
      assert StillMissing(r, r.to) && StillMissing(r, Suffix(r));
      if Bounded(r) { LocatedExactly(r, Interval(Lower(r).value, r.successorAt.value)); }
    }
    if Active(r) && !Bounded(r) && y == BlockSpan(Suffix(r), r.to) {
      forall x: Interval ensures !Located(r, x) { LocatedExactly(r, x); }
    }
  }

  /** An interval is measured exactly when some range of the ledger has its two times, and a span is placed exactly when it is
      what some range without two usable times still misses. */
  lemma {:induction false} LedgerExactly(rs: seq<MissingRange>, x: Interval, y: BlockSpan)
    ensures x in TimesOf(rs) <==> exists i :: 0 <= i < |rs| && Located(rs[i], x)
    ensures y in SpansOf(rs) <==> exists i :: 0 <= i < |rs| && ByNumber(rs[i], y)
    decreases |rs|
  {
    hide Located, ByNumber, Bounded, Active;
    if rs != [] {
      var front, r := rs[..|rs| - 1], rs[|rs| - 1];
      assert rs == front + [r];
      LedgerExactly(front, x, y);
      LocatedExactly(r, x);
      ByNumberExactly(r, y);
      assert Located(rs[|rs| - 1], x) <==> Located(r, x);
      assert ByNumber(rs[|rs| - 1], y) <==> ByNumber(r, y);
      assert (exists i :: 0 <= i < |front| && Located(front[i], x)) ==> exists i :: 0 <= i < |rs| && Located(rs[i], x) by {
        if i :| 0 <= i < |front| && Located(front[i], x) { assert Located(rs[i], x); }
      }
      assert (exists i :: 0 <= i < |front| && ByNumber(front[i], y)) ==> exists i :: 0 <= i < |rs| && ByNumber(rs[i], y) by {
        if i :| 0 <= i < |front| && ByNumber(front[i], y) { assert ByNumber(rs[i], y); }
      }
      if i :| 0 <= i < |rs| && Located(rs[i], x) { assert i < |front| ==> Located(front[i], x); }
      if i :| 0 <= i < |rs| && ByNumber(rs[i], y) { assert i < |front| ==> ByNumber(front[i], y); }
    }
  }

  // ----- one point -----

  /** The whole seconds of a stretch, at least one. */
  ghost predicate WholeSeconds(s: nat, covered: nat) { s >= 1 && (s == 1 || s * SECOND <= covered) && covered < (s + 1) * SECOND }

  ghost predicate RateOf(rate: nat, gas: nat, seconds: nat) { rate * seconds <= gas < (rate + 1) * seconds }

  lemma QuotientIsRate(gas: nat, seconds: nat)
    requires seconds >= 1
    ensures RateOf(gas / seconds, gas, seconds)
  {
    var q := gas / seconds;
    assert (q + 1) * seconds == q * seconds + seconds;
  }

  lemma ShareTimesWidth(covered: nat, width: int)
    requires width > 0 && covered <= width
    ensures var share := covered as real / width as real; share * width as real == covered as real && 0.0 <= share <= 1.0
  {
  }

  lemma SecondsOf(covered: nat)
    ensures WholeSeconds(Max(covered / SECOND, 1), covered)
  {
  }

  /** A point no gap meets and no unplaced range may reach stays as it is; any other is at most partial or unknown. */
  lemma CompletenessExactly(p: Point, known: bool, missing: nat, uncertain: bool, width: int, measure: bool)
    requires 0 < width && missing <= width
    ensures var q := Qualified(p, known, missing, uncertain, width, measure);
            && (!known && !uncertain ==> q == p)
            && (known ==> q.completeness == Partial)
            && (!known && uncertain ==> q.completeness != Complete && (p.completeness != Complete ==> q.completeness == p.completeness))
            && (!known && uncertain && p.completeness == Complete ==> q.completeness == Unknown)
            && q.t == p.t && q.gasUsed == p.gasUsed && q.posterGas == p.posterGas
            && (!measure ==> q == p.(completeness := q.completeness))
  {
    hide Measured;
    MeasuredKeeps(p, width - missing, width);
    MeasuredKeeps(p.(completeness := Partial), width - missing, width);
  }

  lemma MeasuredKeeps(p: Point, covered: nat, width: int)
    requires width > 0
    ensures var q := Measured(p, covered, width);
            && q.t == p.t && q.gasUsed == p.gasUsed && q.posterGas == p.posterGas && q.completeness == p.completeness
            && (q.computePerSecond.Some? <==> p.computePerSecond.Some?)
  {
  }

  /** Coverage and rates of a measured point a gap meets: coverage is the share of the window outside every gap, unknown where
      it was or where it cannot be told; the rates are over the covered whole seconds, none over none. */
  lemma MeasureExactly(p: Point, missing: nat, uncertain: bool, width: int)
    requires 0 < width && missing <= width
    ensures var q := Qualified(p, true, missing, uncertain, width, true);
            && (uncertain || p.coverage.None? || p.coverage.value < 1.0 ==>
                  q.coverage.None? && q.gasPerSecond == p.gasPerSecond && q.computePerSecond == p.computePerSecond)
            && (!uncertain && p.coverage.Some? && p.coverage.value >= 1.0 ==> Covering(p, q, width - missing, width))
  {
    hide Measured, Covering;
    MeasuredCovers(p.(completeness := Partial), width - missing, width);
    CoveringAside(p, Measured(p.(completeness := Partial), width - missing, width), width - missing, width);
  }

  ghost predicate Covering(p: Point, q: Point, covered: nat, width: int) {
    && q.coverage.Some? && q.coverage.value * width as real == covered as real && 0.0 <= q.coverage.value <= 1.0
    && (covered == 0 ==> q.gasPerSecond == 0 && (p.computePerSecond.Some? ==> q.computePerSecond == Some(0)))
    && (covered > 0 ==> exists s: nat :: Rated(p, q, covered, s))
    && (p.computePerSecond.None? ==> q.computePerSecond.None?)
  }

  ghost predicate Rated(p: Point, q: Point, covered: nat, s: nat) {
    && WholeSeconds(s, covered) && RateOf(q.gasPerSecond, p.gasUsed, s)
    && (p.computePerSecond.Some? && p.posterGas.Some? && p.posterGas.value <= p.gasUsed ==>
          q.computePerSecond.Some? && RateOf(q.computePerSecond.value, p.gasUsed - p.posterGas.value, s))
    && (p.computePerSecond.Some? && !(p.posterGas.Some? && p.posterGas.value <= p.gasUsed) ==> q.computePerSecond == p.computePerSecond)
  }

  lemma CoveringAside(p: Point, q: Point, covered: nat, width: int)
    requires Covering(p.(completeness := Partial), q, covered, width)
    ensures Covering(p, q, covered, width)
  {
    hide RateOf, WholeSeconds;
    if covered > 0 {
      var s: nat :| Rated(p.(completeness := Partial), q, covered, s);
      assert Rated(p, q, covered, s);
    }
  }

  lemma MeasuredCovers(p: Point, covered: nat, width: int)
    requires 0 < width && covered <= width
    ensures Covering(p, Measured(p, covered, width), covered, width)
  {
    hide RateOf, WholeSeconds;
    ShareTimesWidth(covered, width);
    if covered > 0 {
      var s := Max(covered / SECOND, 1);
      SecondsOf(covered);
      QuotientIsRate(p.gasUsed, s);
      if p.posterGas.Some? && p.posterGas.value <= p.gasUsed { QuotientIsRate(p.gasUsed - p.posterGas.value, s); }
      assert Rated(p, Measured(p, covered, width), covered, s);
    }
  }

  // ----- the whole chart -----

  /** A point that is left complete lies clear of every gap: no range with times touches its window, and every range without
      is placed away from it. */
  lemma CompleteIsClear(rs: seq<MissingRange>, ts: seq<int>, numbers: seq<nat>, i: nat, p: Point, width: int, measure: bool)
    requires width > 0 && i < |ts| && Outcome(rs, ts, numbers, i, p, width, measure).completeness == Complete
    ensures forall k, x, t :: 0 <= k < |rs| && Located(rs[k], x) && p.t * SECOND <= t < p.t * SECOND + width ==> !Reaches(x, t)
    ensures forall k, y :: 0 <= k < |rs| && ByNumber(rs[k], y) ==> Away(ts, numbers, y, i)
    ensures Outcome(rs, ts, numbers, i, p, width, measure) == p
  {
    hide Qualified, Located, ByNumber, Hit, Instants, Away, Uncertain;
    var start := p.t * SECOND;
    var known, uncertain := Meets(TimesOf(rs), start, start + width), Uncertain(ts, numbers, SpansOf(rs), i);
    CompletenessExactly(p, known, MissingTime(TimesOf(rs), start, width), uncertain, width, measure);
    forall k, x, t | 0 <= k < |rs| && Located(rs[k], x) && start <= t < start + width ensures !Reaches(x, t) {
      LedgerExactly(rs, x, BlockSpan(0, 0));
      assert x in TimesOf(rs);
      NotReached(TimesOf(rs), x, start, start + width, t);
    }
    forall k, y | 0 <= k < |rs| && ByNumber(rs[k], y) ensures Away(ts, numbers, y, i) {
      LedgerExactly(rs, Interval(0, 0), y);
      assert y in SpansOf(rs);
      ClearOf(ts, numbers, SpansOf(rs), i, y);
    }
  }

  lemma NotReached(s: seq<Interval>, x: Interval, start: int, end: int, t: int)
    requires x in s && !Meets(s, start, end) && start <= t < end
    ensures !Reaches(x, t)
  {
    var i :| 0 <= i < |s| && s[i] == x;
    assert !Touched(s, t);
  }

  /** A span is placed, and not at this point nor at one of its second. */
  ghost predicate Away(ts: seq<int>, numbers: seq<nat>, y: BlockSpan, i: nat)
    requires i < |ts|
  {
    |numbers| == |ts| && !Hit(ts, numbers, y, i)
  }

  lemma ClearOf(ts: seq<int>, numbers: seq<nat>, spans: seq<BlockSpan>, i: nat, y: BlockSpan)
    requires i < |ts| && !Uncertain(ts, numbers, spans, i) && y in spans
    ensures Away(ts, numbers, y, i)
  {
    hide Hit;
    var m :| 0 <= m < |spans| && spans[m] == y;
    assert |numbers| == |ts| && !AnyHit(ts, numbers, spans, i);
  }

  lemma {:induction false} LedgerJoins(a: seq<MissingRange>, b: seq<MissingRange>)
    ensures TimesOf(a + b) == TimesOf(a) + TimesOf(b) && SpansOf(a + b) == SpansOf(a) + SpansOf(b)
    decreases |b|
  {
    hide Bounded, Active;
    if b == [] {
      assert a + b == a;
    } else {
      assert (a + b)[..|a + b| - 1] == a + b[..|b| - 1];
      LedgerJoins(a, b[..|b| - 1]);
    }
  }

  /** Recording more ranges never makes a point look better: it is met or uncertain if it was before, and no less of its window
      is missing. */
  lemma MoreGapsNeverHelp(rs: seq<MissingRange>, more: seq<MissingRange>, ts: seq<int>, numbers: seq<nat>, i: nat, start: int, width: int)
    requires width > 0 && i < |ts|
    ensures Meets(TimesOf(rs), start, start + width) ==> Meets(TimesOf(rs + more), start, start + width)
    ensures Uncertain(ts, numbers, SpansOf(rs), i) ==> Uncertain(ts, numbers, SpansOf(rs + more), i)
    ensures MissingTime(TimesOf(rs), start, width) <= MissingTime(TimesOf(rs + more), start, width)
  {
    hide Missing, Touched, Hit;
    LedgerJoins(rs, more);
    var a, b := TimesOf(rs), TimesOf(more);
    forall t: int ensures (Missing(a, t) ==> Missing(a + b, t)) && (Touched(a, t) ==> Touched(a + b, t)) { MissingConcat(a, b, t); }
    SubsetSize(Instants(a, start, start + width), Instants(a + b, start, start + width));
    var s, u := SpansOf(rs), SpansOf(more);
    if |numbers| == |ts| && AnyHit(ts, numbers, s, i) {
      var m :| 0 <= m < |s| && Hit(ts, numbers, s[m], i);
      assert Hit(ts, numbers, (s + u)[m], i);
    }
  }
}
