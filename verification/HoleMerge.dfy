/** What normalising makes of each range (saveHoles of internal/collector/collector.go): no range is lost and none is made
    up; watermarks, cursors and lifecycles come from the ranges merged. */
module HoleMerge {
  import opened Words
  import opened Holes

  /** A range is taken up in another: within it, for the same reason, no watermark or cursor above the other's, and never
      blocked together with unblocked. */
  ghost predicate TakenUp(h: Hole, r: Hole) {
    && r.from <= h.from && h.to <= r.to && h.reason == r.reason
    && h.folded <= r.folded && (h.from == r.from ==> h.next <= r.next)
    && (h.life == Blocked <==> r.life == Blocked) && (h.life == Retrying ==> r.life == Retrying)
  }

  ghost predicate Within(h: Hole, r: Hole, s: seq<Hole>) { h in s && r.from <= h.from && h.to <= r.to }

  ghost predicate HasFolded(r: Hole, s: seq<Hole>) { exists h :: Within(h, r, s) && h.folded == r.folded }
  ghost predicate HasNext(r: Hole, s: seq<Hole>) { exists h :: Within(h, r, s) && h.from == r.from && h.next == r.next }
  ghost predicate HasEnd(r: Hole, s: seq<Hole>) { exists h :: Within(h, r, s) && h.to == r.to }
  ghost predicate HasLife(r: Hole, s: seq<Hole>) { exists h :: Within(h, r, s) && h.life == r.life && h.reason == r.reason }

  /** Every field of a range comes from one of the ranges in it. */
  ghost predicate MadeOf(r: Hole, s: seq<Hole>) { HasFolded(r, s) && HasNext(r, s) && HasEnd(r, s) && HasLife(r, s) }

  ghost predicate AllTaken(s: seq<Hole>, out: seq<Hole>) { forall h :: h in s ==> Somewhere(h, out) }
  ghost predicate Somewhere(h: Hole, out: seq<Hole>) { exists i :: 0 <= i < |out| && TakenUp(h, out[i]) }
  ghost predicate AllMade(out: seq<Hole>, s: seq<Hole>) { forall i :: 0 <= i < |out| ==> MadeOf(out[i], s) }

  ghost predicate NonEmpty(s: seq<Hole>) { forall h :: h in s ==> h.from <= h.to }

  // ----- one merge -----

  lemma StillTaken(x: Hole, a: Hole, h: Hole)
    requires TakenUp(x, a) && Joins(a, h) && a.from <= h.from
    ensures TakenUp(x, Merged(a, h))
  {
  }

  lemma JustTaken(a: Hole, h: Hole)
    requires Joins(a, h) && a.from <= h.from
    ensures TakenUp(h, Merged(a, h))
  {
  }

  lemma MadeAlone(h: Hole, s: seq<Hole>)
    requires h in s
    ensures MadeOf(h, s)
  {
    assert Within(h, h, s);
  }

  lemma MadeWider(r: Hole, s: seq<Hole>, t: seq<Hole>)
    requires MadeOf(r, s) && forall h :: h in s ==> h in t
    ensures MadeOf(r, t)
  {
    var a :| Within(a, r, s) && a.folded == r.folded;
    var b :| Within(b, r, s) && b.from == r.from && b.next == r.next;
    var c :| Within(c, r, s) && c.to == r.to;
    var d :| Within(d, r, s) && d.life == r.life && d.reason == r.reason;
    assert Within(a, r, t) && Within(b, r, t) && Within(c, r, t) && Within(d, r, t);
  }

  lemma MadeJoined(a: Hole, h: Hole, s: seq<Hole>)
    requires MadeOf(a, s) && h in s && Joins(a, h) && a.from <= h.from
    ensures MadeOf(Merged(a, h), s)
  {
    var r := Merged(a, h);
    var f :| Within(f, a, s) && f.folded == a.folded;
    var n :| Within(n, a, s) && n.from == a.from && n.next == a.next;
    var e :| Within(e, a, s) && e.to == a.to;
    var l :| Within(l, a, s) && l.life == a.life && l.reason == a.reason;
    assert Within(f, r, s) && Within(n, r, s) && Within(e, r, s) && Within(l, r, s) && Within(h, r, s);
  }

  lemma JoinTakes(m: seq<Hole>, h: Hole, x: Hole)
    requires m != [] ==> m[|m| - 1].from <= h.from
    requires x == h || Somewhere(x, m)
    ensures Somewhere(x, Joined(m, h))
  {
    hide TakenUp, Joins, Merged;
    var out := Joined(m, h);
    if m != [] && Joins(m[|m| - 1], h) {
      var a := m[|m| - 1];
      assert out[|out| - 1] == Merged(a, h);
      if x == h {
        JustTaken(a, h);
      } else {
        var i :| 0 <= i < |m| && TakenUp(x, m[i]);
        if i < |m| - 1 { assert out[i] == m[i]; } else { StillTaken(x, a, h); }
      }
    } else if x == h {
      assert out[|m|] == h;
      TakenByItself(h);
    } else {
      var i :| 0 <= i < |m| && TakenUp(x, m[i]);
      assert out[i] == m[i];
    }
  }

  lemma TakenByItself(h: Hole)
    ensures TakenUp(h, h)
  {
  }

  lemma JoinMakes(m: seq<Hole>, h: Hole, s: seq<Hole>)
    requires m != [] ==> m[|m| - 1].from <= h.from
    requires AllMade(m, s) && h in s
    ensures AllMade(Joined(m, h), s)
  {
    hide MadeOf, Joins, Merged;
    MadeAlone(h, s);
    if m != [] && Joins(m[|m| - 1], h) { MadeJoined(m[|m| - 1], h, s); }
  }

  // ----- a whole list -----

  lemma {:induction false} MergeMakes(s: seq<Hole>)
    requires Ordered(s)
    ensures AllTaken(s, MergeAll(s)) && AllMade(MergeAll(s), s)
    decreases |s|
  {
    hide Ordered, Joined, Somewhere, MadeOf;
    if s != [] {
      var front, h := s[..|s| - 1], s[|s| - 1];
      assert s == front + [h];
      OrderedFront(s);
      MergeTop(front);
      MergeMakes(front);
      var m := MergeAll(front);
      forall x | x in s ensures Somewhere(x, Joined(m, h)) { JoinTakes(m, h, x); }
      forall i | 0 <= i < |m| ensures MadeOf(m[i], s) { MadeWider(m[i], front, s); }
      JoinMakes(m, h, s);
    }
  }

  lemma {:induction false} SortMembers(hs: seq<Hole>, x: Hole)
    ensures x in Sort(hs) <==> x in hs && x.from <= x.to
    decreases |hs|
  {
    hide Insert;
    if hs != [] {
      var front, h := hs[..|hs| - 1], hs[|hs| - 1];
      assert hs == front + [h];
      SortMembers(front, x);
      if h.to >= h.from {
        var k := InsertHas(Sort(front), h);
        assert Sort(front) == Sort(front)[..k] + Sort(front)[k..];
      }
    }
  }

  /** Any ranges, overlapping or not: each that is not empty is taken up in one of the result, and every field of each of the
      result comes from a range within it, the watermark and the cursor from the furthest. */
  lemma NormalizedExactly(hs: seq<Hole>, h: Hole, i: nat)
    ensures h in hs && h.from <= h.to ==> Somewhere(h, Normalized(hs))
    ensures i < |Normalized(hs)| ==> MadeOf(Normalized(hs)[i], hs)
  {
    hide Ordered, Sort, MergeAll, Somewhere, MadeOf;
    SortOrdered(hs);
    MergeMakes(Sort(hs));
    SortMembers(hs, h);
    if i < |Normalized(hs)| {
      assert MadeOf(MergeAll(Sort(hs))[i], Sort(hs));
      forall x | x in Sort(hs) ensures x in hs { SortMembers(hs, x); }
      MadeWider(Normalized(hs)[i], Sort(hs), hs);
    }
  }

  /** A rewind moves a cursor back to the start only from above the ancestor, and a watermark only when the additive buckets
      went; the range, its reason and its lifecycle stay. */
  lemma BackExactly(h: Hole, ancestor: nat, cleared: bool)
    ensures var r := Back(h, ancestor, cleared);
            && r == h.(next := r.next, folded := r.folded)
            && (h.next > ancestor + 1 ==> r.next == 0 && r.Start() == h.from)
            && (h.next <= ancestor + 1 ==> r.next == h.next)
            && r.folded == (if cleared then 0 else h.folded)
  {
  }

  /** What a fill still folds: everything of the range at or above the watermark its merged ranges carried. A watermark never
      rises above the highest of them, so merging hides no block from the folds that none of them had behind it. */
  lemma NothingHidden(hs: seq<Hole>, i: nat, b: nat)
    requires i < |Normalized(hs)| && Normalized(hs)[i].Has(b)
    requires forall h :: h in hs && Normalized(hs)[i].from <= h.from && h.to <= Normalized(hs)[i].to ==> h.folded <= b
    ensures Normalized(hs)[i].folded <= b
  {
    hide Normalized;
    var r := Normalized(hs)[i];
    NormalizedExactly(hs, r, i);
    var f :| Within(f, r, hs) && f.folded == r.folded;
  }
}
