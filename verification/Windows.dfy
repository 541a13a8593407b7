/** Folding rows into time windows: FoldBlocks of internal/db/bucket.go at each stored resolution, and
    the agreement of a coarse bucket with the finer ones inside it. */
module Windows {
  import opened Words
  import opened Buckets
  import opened BucketLaws

  type Width = w: nat | w > 0 witness 1

  /** The stored resolutions, in nanoseconds, in the order they are folded. */
  const MINUTE: Width := 60_000_000_000
  const QUARTER: Width := 900_000_000_000
  const HOUR: Width := 3_600_000_000_000

  function Start(ts: nat, w: Width): (s: nat)
    ensures s <= ts < s + w && s % w == 0
  {
    var s := ts - ts % w;
    assert s == ts / w * w;
    ModOfMultiple(ts / w, w);
    s
  }

  lemma ModOfMultiple(k: nat, w: nat)
    requires w > 0
    ensures (k * w) % w == 0
  {
    if k > 0 {
      ModOfMultiple(k - 1, w);
      assert k * w == (k - 1) * w + w;
      ModAddWidth((k - 1) * w, w);
    }
  }

  lemma ModAddWidth(x: nat, w: nat)
    requires w > 0
    ensures (x + w) % w == x % w
  {
    var q, r := x / w, x % w;
    assert x + w == (q + 1) * w + r;
    UniqueQuotient(x + w, w, q + 1, r);
  }

  lemma UniqueQuotient(x: nat, w: nat, q: nat, r: nat)
    requires w > 0 && x == q * w + r && r < w
    ensures x / w == q && x % w == r
  {
    var q', r' := x / w, x % w;
    assert x == q' * w + r';
    if q' < q { MulMono(q' + 1, q, w); }
    if q < q' { MulMono(q + 1, q', w); }
  }

  // ----- consecutive rows of one window -----

  /** Rows grouped while their window stays the same, as the fold meets them. */
  function Groups(rows: seq<Block>, w: Width): (g: seq<seq<Block>>)
    ensures rows == [] <==> g == []
    ensures forall i :: 0 <= i < |g| ==> g[i] != []
    decreases |rows|
  {
    if rows == [] then []
    else
      var n := |rows| - 1;
      var g := Groups(rows[..n], w);
      if g != [] && Start(g[|g| - 1][0].ts, w) == Start(rows[n].ts, w)
      then g[..|g| - 1] + [g[|g| - 1] + [rows[n]]]
      else g + [[rows[n]]]
  }

  datatype Entry = Entry(width: nat, start: nat, bucket: Bucket)

  function Entries(g: seq<seq<Block>>, w: Width, sets: Sets): (r: seq<Entry>)
    requires forall i :: 0 <= i < |g| ==> g[i] != []
    ensures |r| == |g|
    ensures forall i :: 0 <= i < |g| ==> r[i] == Entry(w, Start(g[i][0].ts, w), Built(g[i], sets))
  {
    seq(|g|, i requires 0 <= i < |g| => Entry(w, Start(g[i][0].ts, w), Built(g[i], sets)))
  }

  /** One more row either joins the open group or closes it. */
  lemma GroupStep(rows: seq<Block>, i: nat, w: Width, closed: seq<seq<Block>>, open: seq<Block>)
    requires i < |rows|
    requires i > 0 ==> open != [] && Groups(rows[..i], w) == closed + [open]
    ensures i == 0 ==> Groups(rows[..i + 1], w) == [[rows[i]]]
    ensures i > 0 && Start(open[0].ts, w) == Start(rows[i].ts, w) ==> Groups(rows[..i + 1], w) == closed + [open + [rows[i]]]
    ensures i > 0 && Start(open[0].ts, w) != Start(rows[i].ts, w) ==> Groups(rows[..i + 1], w) == closed + [open] + [[rows[i]]]
  {
    hide Start;
    assert rows[..i + 1][..i] == rows[..i];
  }

  lemma EntryAppended(g: seq<seq<Block>>, x: seq<Block>, w: Width, sets: Sets)
    requires (forall i :: 0 <= i < |g| ==> g[i] != []) && x != []
    ensures Entries(g + [x], w, sets) == Entries(g, w, sets) + [Entry(w, Start(x[0].ts, w), Built(x, sets))]
  {
    hide Start, Built;
  }

  lemma FoldedMore(xs: seq<Block>, x: Block, sets: Sets)
    ensures Folded(EMPTY, xs + [x], sets) == Added(Folded(EMPTY, xs, sets), x, sets(x.number))
  {
    hide Added;
    assert (xs + [x])[..|xs|] == xs;
  }

  method FoldWidth(rows: seq<Block>, w: Width, sets: Sets) returns (out: seq<Entry>)
    ensures out == Entries(Groups(rows, w), w, sets)
  {
    hide Added, Start, Finished, Groups, Folded, Entries;
    out := [];
    var start := 0;
    var cur := new BucketBuilder();
    ghost var closed: seq<seq<Block>> := [];
    ghost var open: seq<Block> := [];
    var i := 0;
    NothingFolded(sets);
    assert Entries(closed, w, sets) == [];
    while i < |rows|
      invariant i <= |rows| && fresh(cur) && cur.Valid()
      invariant forall j :: 0 <= j < |closed| ==> closed[j] != []
      invariant i > 0 ==> open != [] && Groups(rows[..i], w) == closed + [open]
      invariant i > 0 ==> start == Start(open[0].ts, w)
      invariant cur.b == Folded(EMPTY, open, sets)
      invariant i == 0 ==> closed == [] && open == []
      invariant out == Entries(closed, w, sets)
    {
      var x := rows[i];
      GroupStep(rows, i, w, closed, open);
      if i == 0 || start != Start(x.ts, w) {
        if i > 0 {
          EntryAppended(closed, open, w, sets);
          out := out + [Entry(w, start, cur.Result())];
          closed := closed + [open];
        }
        start := Start(x.ts, w);
        cur := new BucketBuilder();
        open := [];
        NothingFolded(sets);
      }
      FoldedMore(open, x, sets);
      cur.Add(x, sets(x.number));
      assert [] + [x] == [x];
      open := open + [x];
      i := i + 1;
    }
    assert rows[..i] == rows;
    if i > 0 {
      EntryAppended(closed, open, w, sets);
      out := out + [Entry(w, start, cur.Result())];
    }
  }

  lemma NothingFolded(sets: Sets)
    ensures Folded(EMPTY, [], sets) == EMPTY
  {
  }

  /** FoldBlocks: every resolution in its fixed order. */
  method FoldBlocks(rows: seq<Block>, sets: Sets) returns (out: seq<Entry>)
    ensures out == Entries(Groups(rows, MINUTE), MINUTE, sets) + Entries(Groups(rows, QUARTER), QUARTER, sets)
                 + Entries(Groups(rows, HOUR), HOUR, sets)
  {
    hide Groups, Entries;
    var a := FoldWidth(rows, MINUTE, sets);
    var b := FoldWidth(rows, QUARTER, sets);
    var c := FoldWidth(rows, HOUR, sets);
    out := a + b + c;
  }

  // ----- windows as sets of rows -----

  /** The rows of one window, in order. */
  function Window(rows: seq<Block>, s: nat, w: nat): seq<Block>
    decreases |rows|
  {
    if rows == [] then []
    else
      var n := |rows| - 1;
      Window(rows[..n], s, w) + (if s <= rows[n].ts < s + w then [rows[n]] else [])
  }

  /** The groups whose window starts inside [s, s + w), joined. */
  function Inside(g: seq<seq<Block>>, f: Width, s: nat, w: nat): (r: seq<seq<Block>>)
    requires forall i :: 0 <= i < |g| ==> g[i] != []
    ensures forall i :: 0 <= i < |r| ==> r[i] != []
    decreases |g|
  {
    if g == [] then []
    else
      var n := |g| - 1;
      Inside(g[..n], f, s, w) + (if s <= Start(g[n][0].ts, f) < s + w then [g[n]] else [])
  }

  function Flatten(g: seq<seq<Block>>): seq<Block>
    decreases |g|
  {
    if g == [] then [] else Flatten(g[..|g| - 1]) + g[|g| - 1]
  }

  /** Two multiples of a width are a width apart or equal. */
  lemma MultiplesApart(p: nat, q: nat, f: nat)
    requires p * f < q * f
    ensures p * f + f <= q * f
  {
    if q <= p { MulMono(q, p, f); }
    MulMono(p + 1, q, f);
    assert (p + 1) * f == p * f + f;
  }

  lemma StartAgainst(ts: nat, f: Width, m: nat)
    ensures Start(ts, f) < m * f <==> ts < m * f
  {
    var p := ts / f;
    assert Start(ts, f) == p * f;
    if p * f < m * f { MultiplesApart(p, m, f); }
  }

  /** A coarse width that the fine one divides splits no fine window. */
  lemma FineInCoarse(ts: nat, f: Width, c: Width, s: nat, k: nat)
    requires c == k * f && s % c == 0
    ensures s <= Start(ts, f) < s + c <==> s <= ts < s + c
  {
    hide Start;
    var q := s / c;
    assert q * (k * f) == q * k * f;
    assert s == q * k * f;
    assert s + c == (q * k + k) * f;
    StartAgainst(ts, f, q * k);
    StartAgainst(ts, f, q * k + k);
  }

  /** The fine groups inside a coarse window hold exactly its rows, in order. */
  lemma {:induction false} InsideIsWindow(rows: seq<Block>, f: Width, c: Width, s: nat, k: nat)
    requires c == k * f && s % c == 0
    ensures Flatten(Inside(Groups(rows, f), f, s, c)) == Window(rows, s, c)
    decreases |rows|
  {
    hide Start;
    if rows != [] {
      var n := |rows| - 1;
      var g: seq<seq<Block>>, g': seq<seq<Block>>, x := Groups(rows[..n], f), Groups(rows, f), rows[n];
      InsideIsWindow(rows[..n], f, c, s, k);
      FineInCoarse(x.ts, f, c, s, k);
      if g != [] && Start(g[|g| - 1][0].ts, f) == Start(x.ts, f) {
        var m := |g| - 1;
        assert g'[..m] == g[..m] && g'[m] == g[m] + [x] && g'[m][0] == g[m][0];
        GrowLast(g, g', f, s, c, x);
      } else {
        assert g'[..|g|] == g;
        LastGroup(g', f, s, c);
      }
    }
  }

  lemma LastGroup(g: seq<seq<Block>>, f: Width, s: nat, w: nat)
    requires g != [] && forall i :: 0 <= i < |g| ==> g[i] != []
    ensures Flatten(Inside(g, f, s, w))
         == Flatten(Inside(g[..|g| - 1], f, s, w)) + if s <= Start(g[|g| - 1][0].ts, f) < s + w then g[|g| - 1] else []
  {
    hide Start;
    var n := |g| - 1;
    var r := Inside(g[..n], f, s, w);
    assert (r + [g[n]])[..|r|] == r;
    assert r + [] == r;
  }

  lemma GrowLast(g: seq<seq<Block>>, g': seq<seq<Block>>, f: Width, s: nat, w: nat, x: Block)
    requires g != [] && |g'| == |g| && (forall i :: 0 <= i < |g| ==> g[i] != [])
    requires g'[..|g| - 1] == g[..|g| - 1] && g'[|g| - 1] == g[|g| - 1] + [x]
    requires forall i :: 0 <= i < |g'| ==> g'[i] != []
    ensures Flatten(Inside(g', f, s, w))
         == Flatten(Inside(g, f, s, w)) + if s <= Start(g[|g| - 1][0].ts, f) < s + w then [x] else []
  {
    hide Start, Inside, Flatten;
    LastGroup(g, f, s, w);
    LastGroup(g', f, s, w);
    assert g'[|g| - 1][0] == g[|g| - 1][0];
  }

  // ----- time-ordered rows -----

  ghost predicate TimeOrdered(rows: seq<Block>) {
    forall i, j :: 0 <= i < j < |rows| ==> rows[i].ts <= rows[j].ts
  }

  /** Every group lies in one window and is that window's whole content, and windows rise. */
  ghost predicate WindowsRise(rows: seq<Block>, g: seq<seq<Block>>, w: Width) {
    && (rows == [] <==> g == [])
    && (forall i :: 0 <= i < |g| ==> g[i] != [] && g[i] == Window(rows, Start(g[i][0].ts, w), w))
    && (forall i, j :: 0 <= i < j < |g| ==> Start(g[i][0].ts, w) < Start(g[j][0].ts, w))
    && (g != [] ==> Start(g[|g| - 1][0].ts, w) == Start(rows[|rows| - 1].ts, w))
  }

  lemma StartMono(a: nat, b: nat, w: Width)
    requires a <= b
    ensures Start(a, w) <= Start(b, w)
  {
    var p, q := a / w, b / w;
    assert Start(a, w) == p * w && Start(b, w) == q * w;
    DivMono(a, b, w);
    MulMono(p, q, w);
  }

  lemma StartSame(ts: nat, s: nat, w: Width)
    requires s % w == 0
    ensures Start(ts, w) == s <==> s <= ts < s + w
  {
    FineInCoarse(ts, w, w, s, 1);
    if s <= ts < s + w {
      var p, q := Start(ts, w) / w, s / w;
      assert Start(ts, w) == p * w && s == q * w;
      if p < q { MulMono(p + 1, q, w); }
      if q < p { MulMono(q + 1, p, w); }
    }
  }

  lemma {:induction false} EmptyWindow(rows: seq<Block>, s: nat, w: Width)
    requires forall i :: 0 <= i < |rows| ==> rows[i].ts < s
    ensures Window(rows, s, w) == []
    decreases |rows|
  {
    if rows != [] { EmptyWindow(rows[..|rows| - 1], s, w); }
  }

  lemma {:induction false} OrderedWindows(rows: seq<Block>, w: Width)
    requires TimeOrdered(rows)
    ensures WindowsRise(rows, Groups(rows, w), w)
    decreases |rows|
  {
    if rows != [] {
      hide Start, WindowsRise, TimeOrdered;
      var n := |rows| - 1;
      OrderedPrefix(rows);
      OrderedWindows(rows[..n], w);
      RiseByOne(rows, Groups(rows[..n], w), Groups(rows, w), w);
    }
  }

  lemma OrderedPrefix(rows: seq<Block>)
    requires TimeOrdered(rows) && rows != []
    ensures TimeOrdered(rows[..|rows| - 1])
  {
  }

  lemma RiseByOne(rows: seq<Block>, g: seq<seq<Block>>, g': seq<seq<Block>>, w: Width)
    requires rows != [] && TimeOrdered(rows) && WindowsRise(rows[..|rows| - 1], g, w)
    requires g' == if g != [] && Start(g[|g| - 1][0].ts, w) == Start(rows[|rows| - 1].ts, w)
                   then g[..|g| - 1] + [g[|g| - 1] + [rows[|rows| - 1]]]
                   else g + [[rows[|rows| - 1]]]
    ensures WindowsRise(rows, g', w)
  {
    hide Start, Window;
    var n := |rows| - 1;
    var x := rows[n];
    forall i | 0 <= i < |g| ensures Window(rows, Start(g[i][0].ts, w), w) ==
      g[i] + if Start(x.ts, w) == Start(g[i][0].ts, w) then [x] else []
    {
      OneMoreRow(rows, g[i][0].ts, w);
    }
    if n > 0 {
      assert rows[..n][n - 1] == rows[n - 1];
      StartMono(rows[n - 1].ts, x.ts, w);
    }
    if g != [] && Start(g[|g| - 1][0].ts, w) == Start(x.ts, w) {
      assert (g[|g| - 1] + [x])[0] == g[|g| - 1][0];
    } else {
      FirstOfWindow(rows, w);
    }
  }

  lemma OneMoreRow(rows: seq<Block>, ts: nat, w: Width)
    requires rows != []
    ensures Window(rows, Start(ts, w), w) == Window(rows[..|rows| - 1], Start(ts, w), w)
         + if Start(rows[|rows| - 1].ts, w) == Start(ts, w) then [rows[|rows| - 1]] else []
  {
    hide Start;
    StartAligned(ts, w);
    StartSame(rows[|rows| - 1].ts, Start(ts, w), w);
  }

  lemma StartAligned(ts: nat, w: Width)
    ensures Start(ts, w) % w == 0
  {
  }

  lemma FirstOfWindow(rows: seq<Block>, w: Width)
    requires rows != [] && TimeOrdered(rows)
    requires |rows| > 1 ==> Start(rows[|rows| - 2].ts, w) < Start(rows[|rows| - 1].ts, w)
    ensures Window(rows, Start(rows[|rows| - 1].ts, w), w) == [rows[|rows| - 1]]
  {
    var n := |rows| - 1;
    var s := Start(rows[n].ts, w);
    if n > 0 {
      StartSame(rows[n - 1].ts, s, w);
      StartMono(rows[n - 1].ts, rows[n].ts, w);
    }
    EmptyWindow(rows[..n], s, w);
  }

  // ----- the theorem -----

  function MergeAll(g: seq<seq<Block>>, sets: Sets): Bucket
    requires g != []
    decreases |g|
  {
    if |g| == 1 then Built(g[0], sets) else Merge(MergeAll(g[..|g| - 1], sets), Built(g[|g| - 1], sets))
  }

  lemma {:induction false} MergeAllIsPlain(g: seq<seq<Block>>, sets: Sets)
    requires g != [] && forall i :: 0 <= i < |g| ==> g[i] != []
    ensures Flatten(g) != [] && Aside(MergeAll(g, sets)) == Plain(Flatten(g))
    decreases |g|
  {
    hide Plain, Merge, Built, Aside;
    var n := |g| - 1;
    AsideBuilt(g[n], sets);
    if n == 0 {
      assert g[..0] == [] && Flatten(g) == g[0];
    } else {
      MergeAllIsPlain(g[..n], sets);
      AsideMerge(MergeAll(g[..n], sets), Built(g[n], sets));
      ConcatIsMerge(Flatten(g[..n]), g[n]);
      PlainAside(Flatten(g));
    }
  }

  /** Over time-ordered rows each coarse bucket is the merge of the finer ones that start inside it, and
      is the one bucket of its window. */
  lemma CoarseIsMergeOfFine(rows: seq<Block>, f: Width, c: Width, k: nat, i: nat, sets: Sets)
    requires TimeOrdered(rows) && c == k * f
    requires i < |Groups(rows, c)|
    ensures var coarse := Groups(rows, c)[i];
            var s := Start(coarse[0].ts, c);
            var fine := Inside(Groups(rows, f), f, s, c);
            && coarse == Window(rows, s, c)
            && fine != []
            && Aside(MergeAll(fine, sets)) == Aside(Built(coarse, sets))
    ensures forall j :: 0 <= j < |Groups(rows, c)| && j != i ==>
              Start(Groups(rows, c)[j][0].ts, c) != Start(Groups(rows, c)[i][0].ts, c)
  {
    hide Start, Groups, Window, Inside, Flatten, MergeAll, Plain, Built, Aside;
    OrderedWindows(rows, c);
    var coarse := Groups(rows, c)[i];
    var s := Start(coarse[0].ts, c);
    StartAligned(coarse[0].ts, c);
    InsideIsWindow(rows, f, c, s, k);
    var fine := Inside(Groups(rows, f), f, s, c);
    FlattenEmpty(fine);
    MergeAllIsPlain(fine, sets);
    AsideBuilt(coarse, sets);
  }

  lemma FlattenEmpty(g: seq<seq<Block>>)
    ensures Flatten(g) != [] ==> g != []
  {
  }
}
