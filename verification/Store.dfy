/** The chain store of internal/db/dbtest/memstore.go: block rows, buckets and the prune frontier, and
    the operations the collector's transactions are made of. `Db` is the value the store object holds;
    every method of the object is proved against a function on it. */
module Store {
  import opened Words
  import opened Buckets
  import opened BucketLaws
  import opened Windows

  datatype Key = Key(width: nat, start: nat)
  datatype Db = Db(rows: map<u64, Block>, buckets: map<Key, Bucket>, frontier: Option<nat>)

  // ----- rows in number order -----

  ghost predicate IsGreatest(s: set<u64>, m: u64) { m in s && forall x :: x in s ==> x <= m }

  lemma {:induction false} FindGreatest(s: set<u64>) returns (m: u64)
    requires s != {}
    ensures IsGreatest(s, m)
    decreases |s|
  {
    m :| m in s;
    var rest := s - {m};
    if rest != {} {
      var r := FindGreatest(rest);
      assert forall x :: x in s ==> x == m || x in rest;
      if m < r { m := r; }
    } else {
      assert s == {m};
    }
  }

  lemma HasGreatest(s: set<u64>)
    requires s != {}
    ensures exists m :: m in s && forall x :: x in s ==> x <= m
  {
    var m := FindGreatest(s);
  }

  function Greatest(s: set<u64>): (m: u64)
    requires s != {}
    ensures IsGreatest(s, m)
  {
    HasGreatest(s);
    var m :| m in s && forall x :: x in s ==> x <= m;
    m
  }

  /** Every stored row, ascending by number. */
  function Sorted(rows: map<u64, Block>): (r: seq<Block>)
    ensures |r| == |rows|
    decreases |rows|
  {
    if rows == map[] then []
    else
      var m := Greatest(rows.Keys);
      assert |rows - {m}| < |rows| by { assert (rows - {m}).Keys == rows.Keys - {m}; }
      Sorted(rows - {m}) + [rows[m]]
  }

  function InWindow(rows: map<u64, Block>, s: nat, w: nat): map<u64, Block> {
    map n | n in rows && s <= rows[n].ts < s + w :: rows[n]
  }

  lemma SortedStep(rows: map<u64, Block>, m: u64)
    requires IsGreatest(rows.Keys, m)
    ensures |rows - {m}| < |rows| && Sorted(rows) == Sorted(rows - {m}) + [rows[m]]
  {
    assert Greatest(rows.Keys) == m;
    assert (rows - {m}).Keys == rows.Keys - {m};
  }

  lemma WindowStep(xs: seq<Block>, x: Block, s: nat, w: nat)
    ensures Window(xs + [x], s, w) == Window(xs, s, w) + if s <= x.ts < s + w then [x] else []
  {
    assert (xs + [x])[..|xs|] == xs;
  }

  lemma WindowNone(xs: seq<Block>, s: nat, w: nat)
    ensures Window(xs[..0], s, w) == []
  {
  }

  /** Taking the greatest row out of a window, or finding it outside. */
  lemma WindowLosesGreatest(rows: map<u64, Block>, m: u64, s: nat, w: nat)
    requires IsGreatest(rows.Keys, m)
    ensures s <= rows[m].ts < s + w ==>
              && IsGreatest(InWindow(rows, s, w).Keys, m) && InWindow(rows, s, w)[m] == rows[m]
              && InWindow(rows, s, w) - {m} == InWindow(rows - {m}, s, w)
    ensures !(s <= rows[m].ts < s + w) ==> InWindow(rows, s, w) == InWindow(rows - {m}, s, w)
  {
  }

  /** Scanning the sorted rows for a window finds the window's own rows, sorted. */
  lemma {:induction false} ScanFindsWindow(rows: map<u64, Block>, s: nat, w: nat)
    ensures Window(Sorted(rows), s, w) == Sorted(InWindow(rows, s, w))
    decreases |rows|
  {
    if rows == map[] {
      assert InWindow(rows, s, w) == map[];
    } else {
      hide Sorted, Window, InWindow, IsGreatest;
      var m := Greatest(rows.Keys);
      SortedStep(rows, m);
      InKeys(rows, m);
      WindowStep(Sorted(rows - {m}), rows[m], s, w);
      ScanFindsWindow(rows - {m}, s, w);
      WindowLosesGreatest(rows, m, s, w);
      if s <= rows[m].ts < s + w {
        SortedStep(InWindow(rows, s, w), m);
      }
    }
  }

  lemma InKeys(rows: map<u64, Block>, m: u64)
    requires IsGreatest(rows.Keys, m)
    ensures m in rows
  {
  }

  // ----- operations -----

  function Upserted(rows: map<u64, Block>, blocks: seq<Block>): map<u64, Block>
    decreases |blocks|
  {
    if blocks == [] then rows
    else Upserted(rows, blocks[..|blocks| - 1])[blocks[|blocks| - 1].number := blocks[|blocks| - 1]]
  }

  predicate Below(start: nat, frontier: Option<nat>) { frontier.Some? && start < frontier.value }

  /** What a rebuild leaves at one window: the bucket of its rows, or none. */
  function RebuiltOne(d: Db, w: Width, s: nat, sets: Sets): Db {
    if Below(s, d.frontier) then d
    else
      var xs := Sorted(InWindow(d.rows, s, w));
      if xs == [] then d.(buckets := d.buckets - {Key(w, s)})
      else d.(buckets := d.buckets[Key(w, s) := Built(xs, sets)])
  }

  function Rebuilt(d: Db, w: Width, starts: seq<nat>, sets: Sets): Db
    decreases |starts|
  {
    if starts == [] then d
    else RebuiltOne(Rebuilt(d, w, starts[..|starts| - 1], sets), w, starts[|starts| - 1], sets)
  }

  /** The additive fold of partial buckets. */
  function FoldedIn(d: Db, es: seq<Entry>): Db
    decreases |es|
  {
    if es == [] then d
    else
      var before := FoldedIn(d, es[..|es| - 1]);
      var e := es[|es| - 1];
      var k := Key(e.width, e.start);
      before.(buckets := before.buckets[k := if k in before.buckets then Merge(before.buckets[k], e.bucket) else e.bucket])
  }

  function Pruned(d: Db, before: nat): Db {
    d.(rows := map n | n in d.rows && d.rows[n].ts >= before :: d.rows[n])
  }

  function DeletedAfter(d: Db, after: u64): Db {
    d.(rows := map n | n in d.rows && n <= after :: d.rows[n])
  }

  function RowsAfter(d: Db, after: u64): seq<Block> {
    Sorted(map n | n in d.rows && n > after :: d.rows[n])
  }

  function Discarded(d: Db, w: nat, starts: seq<nat>): Db {
    d.(buckets := Spared(d.buckets, w, starts, d.frontier))
  }

  function Spared(m: map<Key, Bucket>, w: nat, starts: seq<nat>, frontier: Option<nat>): map<Key, Bucket> {
    map k | k in m && !(k.width == w && k.start in starts && Below(k.start, frontier)) :: m[k]
  }

  function DeletedBefore(d: Db, before: nat): Db {
    d.(buckets := map k | k in d.buckets && k.start >= before :: d.buckets[k])
  }

  /** A row is touched when it is stored, still lacks the value, and the value fits its own gas. */
  function PosterSet(d: Db, gas: map<u64, u64>): Db {
    d.(rows := map n | n in d.rows :: if n in gas && d.rows[n].posterGas.None? && gas[n] <= d.rows[n].gasUsed && gas[n] <= MAX_I64
                                      then d.rows[n].(posterGas := Some(gas[n])) else d.rows[n])
  }

  function Part(gas: map<u64, u64>, done: set<u64>): map<u64, u64> { map n | n in gas && n in done :: gas[n] }

  lemma PartNone(d: Db, gas: map<u64, u64>)
    ensures PosterSet(d, Part(gas, {})) == d
  {
    assert PosterSet(d, Part(gas, {})).rows == d.rows;
  }

  lemma PartAll(gas: map<u64, u64>)
    ensures Part(gas, gas.Keys) == gas
  {
  }

  function OneSet(rows: map<u64, Block>, n: u64, g: u64): map<u64, Block>
    requires g <= MAX_I64
  {
    if n in rows && rows[n].posterGas.None? && g <= rows[n].gasUsed then rows[n := rows[n].(posterGas := Some(g))] else rows
  }

  /** One more entry touches its own row and no other. */
  lemma PartMore(d: Db, gas: map<u64, u64>, done: set<u64>, n: u64)
    requires n in gas && n !in done && gas[n] <= MAX_I64
    ensures var before := PosterSet(d, Part(gas, done));
            PosterSet(d, Part(gas, done + {n})) == before.(rows := OneSet(before.rows, n, gas[n]))
  {
    var before := PosterSet(d, Part(gas, done));
    assert PosterSet(d, Part(gas, done + {n})).rows == OneSet(before.rows, n, gas[n]);
  }

  // ----- the object -----

  class MemStore {
    var rows: map<u64, Block>
    var buckets: map<Key, Bucket>
    var frontier: Option<nat>

    ghost function Value(): Db reads this { Db(rows, buckets, frontier) }

    constructor ()
      ensures Value() == Db(map[], map[], None)
    {
      rows, buckets, frontier := map[], map[], None;
    }

    method UpsertBlocks(blocks: seq<Block>)
      modifies this
      ensures Value() == old(Value()).(rows := Upserted(old(rows), blocks))
    {
      var i := 0;
      while i < |blocks|
        invariant i <= |blocks| && buckets == old(buckets) && frontier == old(frontier)
        invariant rows == Upserted(old(rows), blocks[..i])
      {
        assert blocks[..i + 1][..i] == blocks[..i];
        rows := rows[blocks[i].number := blocks[i]];
        i := i + 1;
      }
      assert blocks[..i] == blocks;
    }

    /** One window scanned and aggregated. */
    method Aggregate(w: Width, start: nat, sets: Sets) returns (n: nat, b: Bucket)
      ensures n == |Sorted(InWindow(rows, start, w))|
      ensures b == Built(Sorted(InWindow(rows, start, w)), sets)
    {
      hide Added, Sorted, Finished, Window, Folded, InWindow;
      var all := Sorted(rows);
      WindowNone(all, start, w);
      var acc := new BucketBuilder();
      ghost var seen: seq<Block> := [];
      NothingFolded(sets);
      var i := 0;
      n := 0;
      while i < |all|
        invariant i <= |all| && fresh(acc) && acc.Valid() && n == |seen|
        invariant seen == Window(all[..i], start, w)
        invariant acc.b == Folded(EMPTY, seen, sets)
      {
        var x := all[i];
        WindowStep(all[..i], x, start, w);
        assert all[..i + 1] == all[..i] + [x];
        if x.ts >= start && x.ts < start + w {
          FoldedMore(seen, x, sets);
          acc.Add(x, sets(x.number));
          seen := seen + [x];
          n := n + 1;
        }
        i := i + 1;
      }
      assert all[..i] == all;
      ScanFindsWindow(rows, start, w);
      b := acc.Result();
    }

    method RebuildBuckets(w: Width, starts: seq<nat>, sets: Sets)
      modifies this
      ensures Value() == Rebuilt(old(Value()), w, starts, sets)
    {
      hide Sorted, Built;
      var i := 0;
      while i < |starts|
        invariant i <= |starts|
        invariant Value() == Rebuilt(old(Value()), w, starts[..i], sets)
      {
        assert starts[..i + 1][..i] == starts[..i];
        var start := starts[i];
        if !(frontier.Some? && start < frontier.value) {
          var n, b := Aggregate(w, start, sets);
          if n == 0 {
            buckets := buckets - {Key(w, start)};
          } else {
            buckets := buckets[Key(w, start) := b];
          }
        }
        i := i + 1;
      }
      assert starts[..i] == starts;
    }

    method FoldBuckets(es: seq<Entry>)
      modifies this
      ensures Value() == FoldedIn(old(Value()), es)
    {
      hide Merge;
      var i := 0;
      while i < |es|
        invariant i <= |es|
        invariant Value() == FoldedIn(old(Value()), es[..i])
      {
        assert es[..i + 1][..i] == es[..i];
        var k := Key(es[i].width, es[i].start);
        if k !in buckets {
          buckets := buckets[k := es[i].bucket];
        } else {
          buckets := buckets[k := Merge(buckets[k], es[i].bucket)];
        }
        i := i + 1;
      }
      assert es[..i] == es;
    }

    method PruneBlocks(before: nat)
      modifies this
      ensures Value() == Pruned(old(Value()), before)
    {
      rows := map n | n in rows && !(rows[n].ts < before) :: rows[n];
    }

    method DeleteBlocksAfter(after: u64) returns (removed: seq<Block>)
      modifies this
      ensures Value() == DeletedAfter(old(Value()), after)
      ensures removed == RowsAfter(old(Value()), after)
    {
      removed := Sorted(map n | n in rows && n > after :: rows[n]);
      rows := map n | n in rows && !(n > after) :: rows[n];
    }

    method DiscardBucketsBelowFrontier(w: Width, starts: seq<nat>)
      modifies this
      ensures Value() == Discarded(old(Value()), w, starts)
    {
      if frontier.None? {
        assert buckets == Discarded(Value(), w, starts).buckets;
        return;
      }
      var i := 0;
      while i < |starts|
        invariant i <= |starts| && rows == old(rows) && frontier == old(frontier)
        invariant buckets == Discarded(old(Value()), w, starts[..i]).buckets
      {
        assert starts[..i + 1] == starts[..i] + [starts[i]];
        if starts[i] < frontier.value {
          buckets := buckets - {Key(w, starts[i])};
        }
        i := i + 1;
      }
      assert starts[..i] == starts;
    }

    method DeleteBucketsBefore(before: nat)
      modifies this
      ensures Value() == DeletedBefore(old(Value()), before)
    {
      buckets := map k | k in buckets && !(k.start < before) :: buckets[k];
    }

    method SetOne(n: u64, g: u64)
      requires g <= MAX_I64
      modifies this`rows
      ensures rows == OneSet(old(rows), n, g)
    {
      if n in rows && rows[n].posterGas.None? && g <= rows[n].gasUsed {
        rows := rows[n := rows[n].(posterGas := Some(g))];
      }
    }

    /** Entries are visited in no particular order; one past the signed column range ends the loop, whatever was
        written before it. */
    method SetPosterGas(gas: map<u64, u64>) returns (ok: bool)
      modifies this
      ensures ok <==> forall n :: n in gas ==> n <= MAX_I64 && gas[n] <= MAX_I64
      ensures ok ==> Value() == PosterSet(old(Value()), gas)
      ensures !ok ==> exists done: set<u64> :: done < gas.Keys && Value() == PosterSet(old(Value()), Part(gas, done))
    {
      hide PosterSet, Part, OneSet;
      ghost var d, done: set<u64> := Value(), {};
      var left := gas.Keys;
      PartNone(d, gas);
      while left != {}
        invariant left + done == gas.Keys && left !! done && Value() == PosterSet(d, Part(gas, done))
        invariant forall n :: n in done ==> n <= MAX_I64 && gas[n] <= MAX_I64
        decreases |left|
      {
        var n :| n in left;
        if n > MAX_I64 || gas[n] > MAX_I64 {
          assert n in gas && n !in done;
          return false;
        }
        PartMore(d, gas, done, n);
        SetOne(n, gas[n]);
        left, done := left - {n}, done + {n};
      }
      assert done == gas.Keys;
      PartAll(gas);
      ok := true;
    }

    /** recordPruneFrontier: the frontier only moves forward. */
    method RecordPruneFrontier(before: nat)
      modifies this
      ensures Value() == old(Value()).(frontier := Raised(old(frontier), before))
    {
      if frontier.Some? && before <= frontier.value { return; }
      frontier := Some(before);
    }
  }

  function Raised(frontier: Option<nat>, before: nat): Option<nat> {
    if frontier.Some? && before <= frontier.value then frontier else Some(before)
  }
}
