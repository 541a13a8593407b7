/** Multi-row upserts (internal/db/postgres.go). One INSERT may not carry a conflict key twice, so rows are
    dealt into layers; the table ends as if they had been written one by one, for any conflict rule. */
module Layers {
  import opened Words

  /** How a row is keyed, and what it makes of the stored value it meets (none on a plain insert). */
  datatype Schema<!T, !K, !V> = Schema(key: T -> K, rule: (Option<V>, T) -> V)

  function Lookup<K, V>(t: map<K, V>, k: K): Option<V> { if k in t then Some(t[k]) else None }

  /** The reference: each row in turn, seeing what the rows before it left. */
  function OneByOne<T, K, V>(c: Schema<T, K, V>, t: map<K, V>, rows: seq<T>): map<K, V>
    decreases |rows|
  {
    if rows == [] then t
    else
      var u := OneByOne(c, t, rows[..|rows| - 1]);
      var r := rows[|rows| - 1];
      u[c.key(r) := c.rule(Lookup(u, c.key(r)), r)]
  }

  /** One statement: every row sees the table as it was before the statement. */
  function Statement<T, K, V>(c: Schema<T, K, V>, t: map<K, V>, rows: seq<T>): map<K, V>
    decreases |rows|
  {
    if rows == [] then t
    else
      var r := rows[|rows| - 1];
      Statement(c, t, rows[..|rows| - 1])[c.key(r) := c.rule(Lookup(t, c.key(r)), r)]
  }

  /** The rows with one key, in order. */
  function Only<T, K(==)>(key: T -> K, rows: seq<T>, k: K): seq<T>
    decreases |rows|
  {
    if rows == [] then []
    else Only(key, rows[..|rows| - 1], k) + if key(rows[|rows| - 1]) == k then [rows[|rows| - 1]] else []
  }

  /** The database accepts the statement. */
  ghost predicate Accepted<T, K(!new)>(key: T -> K, rows: seq<T>) { forall k: K :: |Only(key, rows, k)| <= 1 }

  function Flat<T>(layers: seq<seq<T>>): seq<T>
    decreases |layers|
  {
    if layers == [] then [] else Flat(layers[..|layers| - 1]) + layers[|layers| - 1]
  }

  // ----- by key -----

  function Folded<T, K, V>(c: Schema<T, K, V>, v: Option<V>, rows: seq<T>): Option<V>
    decreases |rows|
  {
    if rows == [] then v else Some(c.rule(Folded(c, v, rows[..|rows| - 1]), rows[|rows| - 1]))
  }

  lemma {:induction false} OnlyConcat<T, K>(key: T -> K, a: seq<T>, b: seq<T>, k: K)
    ensures Only(key, a + b, k) == Only(key, a, k) + Only(key, b, k)
    decreases |b|
  {
    if b == [] {
      assert a + b == a;
    } else {
      assert (a + b)[..|a + b| - 1] == a + b[..|b| - 1];
      OnlyConcat(key, a, b[..|b| - 1], k);
    }
  }

  lemma OnlyOne<T, K>(key: T -> K, r: T, k: K)
    ensures Only(key, [r], k) == Ours(key, r, k)
  {
    assert [r][..0] == [];
  }

  /** A key's value depends on the rows of that key alone. */
  lemma {:induction false} OneByOneAt<T, K, V>(c: Schema<T, K, V>, t: map<K, V>, rows: seq<T>, k: K)
    ensures Lookup(OneByOne(c, t, rows), k) == Folded(c, Lookup(t, k), Only(c.key, rows, k))
    decreases |rows|
  {
    if rows != [] {
      var front, r := rows[..|rows| - 1], rows[|rows| - 1];
      OneByOneAt(c, t, front, k);
      if c.key(r) == k {
        FoldedMore(c, Lookup(t, k), Only(c.key, front, k), r);
      } else {
        assert Only(c.key, front, k) + [] == Only(c.key, front, k);
      }
    }
  }

  lemma FoldedMore<T, K, V>(c: Schema<T, K, V>, v: Option<V>, rows: seq<T>, r: T)
    ensures Folded(c, v, rows + [r]) == Some(c.rule(Folded(c, v, rows), r))
  {
    assert (rows + [r])[..|rows|] == rows;
  }

  lemma {:induction false} StatementAt<T, K, V>(c: Schema<T, K, V>, t: map<K, V>, rows: seq<T>, k: K)
    requires |Only(c.key, rows, k)| <= 1
    ensures Lookup(Statement(c, t, rows), k) == Folded(c, Lookup(t, k), Only(c.key, rows, k))
    decreases |rows|
  {
    if rows != [] {
      var front, r := rows[..|rows| - 1], rows[|rows| - 1];
      if c.key(r) == k {
        assert Only(c.key, front, k) == [];
        FoldedMore(c, Lookup(t, k), [], r);
        assert [] + [r] == [r];
      } else {
        assert Only(c.key, front, k) + [] == Only(c.key, front, k);
        StatementAt(c, t, front, k);
      }
    }
  }

  lemma SameTable<K(!new), V(!new)>(a: map<K, V>, b: map<K, V>)
    requires forall k: K :: Lookup(a, k) == Lookup(b, k)
    ensures a == b
  {
    forall k: K ensures (k in a <==> k in b) && (k in a ==> a[k] == b[k]) {
      assert Lookup(a, k) == Lookup(b, k);
    }
  }

  // ----- dealing rows into layers -----

  ghost predicate Dealt<T(!new), K(!new)>(key: T -> K, rows: seq<T>, layers: seq<seq<T>>) {
    && (forall j :: 0 <= j < |layers| ==> Accepted(key, layers[j]))
    && (forall k: K :: Only(key, Flat(layers), k) == Only(key, rows, k))
    && multiset(Flat(layers)) == multiset(rows)
  }

  /** A key with n rows so far is in the first n layers and in no later one. */
  ghost predicate Filling<T(!new), K(!new)>(key: T -> K, layers: seq<seq<T>>, counts: map<K, nat>) {
    && (forall k: K :: Times(counts, k) <= |layers|)
    && (forall k: K, j :: Times(counts, k) <= j < |layers| ==> Only(key, layers[j], k) == [])
  }

  function Times<K>(counts: map<K, nat>, k: K): nat { if k in counts then counts[k] else 0 }

  lemma FlatMore<T, K>(key: T -> K, front: seq<seq<T>>, last: seq<T>, k: K)
    ensures Only(key, Flat(front + [last]), k) == Only(key, Flat(front), k) + Only(key, last, k)
  {
    assert (front + [last])[..|front|] == front;
    OnlyConcat(key, Flat(front), last, k);
  }

  function Ours<T, K(==)>(key: T -> K, r: T, k: K): seq<T> { if key(r) == k then [r] else [] }

  lemma Regroup<T>(a: seq<T>, b: seq<T>, d: seq<T>)
    requires b == [] || d == []
    ensures a + b + d == a + d + b
  {
  }

  /** What a layer given one more row does to the rows of a key. */
  lemma {:induction false} FlatPut<T, K>(key: T -> K, layers: seq<seq<T>>, n: nat, r: T, k: K)
    requires n < |layers|
    requires key(r) == k ==> forall j :: n <= j < |layers| ==> Only(key, layers[j], k) == []
    ensures Only(key, Flat(layers[n := layers[n] + [r]]), k) == Only(key, Flat(layers), k) + Ours(key, r, k)
    decreases |layers|
  {
    hide Only, Flat;
    var front, last := layers[..|layers| - 1], layers[|layers| - 1];
    assert layers == front + [last];
    FlatMore(key, front, last, k);
    if n == |layers| - 1 {
      assert layers[n := layers[n] + [r]] == front + [last + [r]];
      FlatMore(key, front, last + [r], k);
      OnlyConcat(key, last, [r], k);
      OnlyOne(key, r, k);
      assert Only(key, Flat(front), k) + (Only(key, last, k) + Ours(key, r, k))
             == Only(key, Flat(front), k) + Only(key, last, k) + Ours(key, r, k);
    } else {
      FlatPut(key, front, n, r, k);
      assert layers[n := layers[n] + [r]] == front[n := front[n] + [r]] + [last];
      FlatMore(key, front[n := front[n] + [r]], last, k);
      Regroup(Only(key, Flat(front), k), Ours(key, r, k), Only(key, last, k));
    }
  }

  lemma {:induction false} FlatPutAll<T>(layers: seq<seq<T>>, n: nat, r: T)
    requires n < |layers|
    ensures multiset(Flat(layers[n := layers[n] + [r]])) == multiset(Flat(layers)) + multiset{r}
    decreases |layers|
  {
    var put := layers[n := layers[n] + [r]];
    var front, last := layers[..|layers| - 1], layers[|layers| - 1];
    if n == |layers| - 1 {
      assert put[..|put| - 1] == front;
      assert multiset(last + [r]) == multiset(last) + multiset{r};
    } else {
      FlatPutAll(front, n, r);
      assert put[..|put| - 1] == front[n := front[n] + [r]];
    }
  }

  lemma PutDealt<T(!new), K(!new)>(key: T -> K, rows: seq<T>, layers: seq<seq<T>>, counts: map<K, nat>, r: T, n: nat)
    requires Dealt(key, rows, layers) && Filling(key, layers, counts) && n == Times(counts, key(r)) < |layers|
    ensures Dealt(key, rows + [r], layers[n := layers[n] + [r]])
    ensures Filling(key, layers[n := layers[n] + [r]], counts[key(r) := n + 1])
  {
    hide Only, Flat;
    var put, more := layers[n := layers[n] + [r]], counts[key(r) := n + 1];
    forall k: K ensures Only(key, put[n], k) == Only(key, layers[n], k) + Ours(key, r, k) {
      OnlyConcat(key, layers[n], [r], k);
      OnlyOne(key, r, k);
    }
    assert Accepted(key, layers[n]);
    forall j | 0 <= j < |put| ensures Accepted(key, put[j]) {
      assert Accepted(key, layers[j]);
    }
    forall k: K ensures Only(key, Flat(put), k) == Only(key, rows + [r], k) {
      FlatPut(key, layers, n, r, k);
      OnlyConcat(key, rows, [r], k);
      OnlyOne(key, r, k);
    }
    FlatPutAll(layers, n, r);
    assert multiset(rows + [r]) == multiset(rows) + multiset{r};
    assert Dealt(key, rows + [r], put);
    forall k: K, j | Times(more, k) <= j < |put| ensures Only(key, put[j], k) == [] {
      assert Times(counts, k) <= j;
      assert Only(key, layers[j], k) == [];
      assert j == n ==> key(r) != k;
    }
    assert forall k: K :: Times(counts, k) <= Times(more, k) <= |put|;
  }

  lemma EmptyLayer<T(!new), K(!new)>(key: T -> K, rows: seq<T>, layers: seq<seq<T>>, counts: map<K, nat>)
    requires Dealt(key, rows, layers) && Filling(key, layers, counts)
    ensures Dealt(key, rows, layers + [[]]) && Filling(key, layers + [[]], counts)
  {
    assert (layers + [[]])[..|layers|] == layers;
    assert Flat(layers + [[]]) == Flat(layers);
    assert forall k: K :: Only(key, [], k) == [];
    assert Accepted(key, []);
  }

  lemma NothingDealt<T(!new), K(!new)>(key: T -> K)
    ensures Dealt(key, [], []) && Filling(key, [], map[])
  {
  }

  /** No layer repeats a key, no row is lost, and each key keeps its rows in order. */
  method UniqueLayers<T(!new), K(==, !new)>(rows: seq<T>, key: T -> K) returns (layers: seq<seq<T>>)
    ensures Dealt(key, rows, layers)
  {
    hide Dealt, Filling, Only, Flat;
    var counts: map<K, nat> := map[];
    layers := [];
    NothingDealt<T, K>(key);
    assert rows[..0] == [];
    var i := 0;
    while i < |rows|
      invariant 0 <= i <= |rows| && Dealt(key, rows[..i], layers) && Filling(key, layers, counts)
    {
      var k := key(rows[i]);
      var n := if k in counts then counts[k] else 0;
      assert n <= |layers| by { Within(key, layers, counts, k); }
      if n == |layers| {
        EmptyLayer(key, rows[..i], layers, counts);
        layers := layers + [[]];
      }
      PutDealt(key, rows[..i], layers, counts, rows[i], n);
      assert rows[..i + 1] == rows[..i] + [rows[i]];
      layers := layers[n := layers[n] + [rows[i]]];
      counts := counts[k := n + 1];
      i := i + 1;
    }
    assert rows[..i] == rows;
  }

  lemma Within<T(!new), K(!new)>(key: T -> K, layers: seq<seq<T>>, counts: map<K, nat>, k: K)
    requires Filling(key, layers, counts)
    ensures Times(counts, k) <= |layers|
  {
  }

  // ----- the upsert -----

  lemma {:induction false} PartAccepted<T(!new), K(!new)>(key: T -> K, a: seq<T>, b: seq<T>, d: seq<T>)
    requires Accepted(key, a + b + d)
    ensures Accepted(key, b)
  {
    forall k: K ensures |Only(key, b, k)| <= 1 {
      OnlyConcat(key, a + b, d, k);
      OnlyConcat(key, a, b, k);
      assert |Only(key, a + b + d, k)| <= 1;
    }
  }

  /** One accepted statement is its rows one by one. */
  lemma StatementIsOneByOne<T(!new), K(!new), V(!new)>(c: Schema<T, K, V>, t: map<K, V>, rows: seq<T>)
    requires Accepted(c.key, rows)
    ensures Statement(c, t, rows) == OneByOne(c, t, rows)
  {
    hide Statement, OneByOne, Folded, Only;
    forall k: K ensures Lookup(Statement(c, t, rows), k) == Lookup(OneByOne(c, t, rows), k) {
      StatementAt(c, t, rows, k);
      OneByOneAt(c, t, rows, k);
    }
    SameTable(Statement(c, t, rows), OneByOne(c, t, rows));
  }

  lemma {:induction false} OneByOneConcat<T, K, V>(c: Schema<T, K, V>, t: map<K, V>, a: seq<T>, b: seq<T>)
    ensures OneByOne(c, t, a + b) == OneByOne(c, OneByOne(c, t, a), b)
    decreases |b|
  {
    if b == [] {
      assert a + b == a;
    } else {
      assert (a + b)[..|a + b| - 1] == a + b[..|b| - 1];
      OneByOneConcat(c, t, a, b[..|b| - 1]);
    }
  }

  /** Only the order within each key matters. */
  lemma ByKeyDecides<T(!new), K(!new), V(!new)>(c: Schema<T, K, V>, t: map<K, V>, a: seq<T>, b: seq<T>)
    requires forall k: K :: Only(c.key, a, k) == Only(c.key, b, k)
    ensures OneByOne(c, t, a) == OneByOne(c, t, b)
  {
    hide OneByOne, Folded, Only;
    forall k: K ensures Lookup(OneByOne(c, t, a), k) == Lookup(OneByOne(c, t, b), k) {
      OneByOneAt(c, t, a, k);
      OneByOneAt(c, t, b, k);
    }
    SameTable(OneByOne(c, t, a), OneByOne(c, t, b));
  }

  /** A layer goes out in statements of at most `size` rows, each of which the database accepts. */
  method WriteLayer<T(!new), K(!new), V(!new)>(c: Schema<T, K, V>, t: map<K, V>, layer: seq<T>, size: nat) returns (u: map<K, V>)
    requires size >= 1 && Accepted(c.key, layer)
    ensures u == OneByOne(c, t, layer)
  {
    u := t;
    var from := 0;
    while from < |layer|
      invariant 0 <= from <= |layer| && u == OneByOne(c, t, layer[..from])
    {
      hide OneByOne, Statement;
      var upto := Min(from + size, |layer|);
      var batch := layer[from..upto];
      assert layer == layer[..from] + batch + layer[upto..];
      PartAccepted(c.key, layer[..from], batch, layer[upto..]);
      StatementIsOneByOne(c, u, batch);
      OneByOneConcat(c, t, layer[..from], batch);
      assert layer[..upto] == layer[..from] + batch;
      u := Statement(c, u, batch);
      from := upto;
    }
    assert layer[..from] == layer;
  }

  /** The whole upsert ends in the table that writing the rows one by one, in their own order, ends in. */
  method Upsert<T(!new), K(==, !new), V(!new)>(c: Schema<T, K, V>, t: map<K, V>, rows: seq<T>, size: nat) returns (u: map<K, V>)
    requires size >= 1
    ensures u == OneByOne(c, t, rows)
  {
    var layers := UniqueLayers(rows, c.key);
    u := t;
    var j := 0;
    while j < |layers|
      invariant 0 <= j <= |layers| && u == OneByOne(c, t, Flat(layers[..j]))
    {
      assert Accepted(c.key, layers[j]);
      hide OneByOne, Accepted;
      u := WriteLayer(c, u, layers[j], size);
      assert layers[..j + 1][..j] == layers[..j];
      OneByOneConcat(c, t, Flat(layers[..j]), layers[j]);
      j := j + 1;
    }
    assert layers[..j] == layers;
    ByKeyDecides(c, t, Flat(layers), rows);
  }
}
