/** The WebSocket hub of internal/api/ws.go: a ring of recent blocks kept from the block table, and a
    feed of hello, blocks and reorg messages to each client. Ring update, fan-out and subscription are
    separate steps, since a client may register between an update and its fan-out. */
module Hub {
  import opened Words

  const RING_SIZE: nat := 1500
  const HELLO_BLOCKS: nat := 1200
  const CLIENT_QUEUE: nat := 64

  /** What a client is sent for a block. */
  datatype Point = Point(number: u64, body: string)

  /** A ring entry, and a row of the block table: the point and the stored hash. */
  datatype Entry = Entry(point: Point, hash: string)

  datatype Delta = Append(blocks: seq<Point>) | Reorg(ancestor: u64, blocks: seq<Point>)

  datatype Message = Hello(recent: seq<Point>) | Blocks(blocks: seq<Point>) | Replace(ancestor: u64, canonical: seq<Point>) | Tick

  // ----- sequences by number -----

  ghost predicate Ascending(s: seq<Point>) {
    && (forall i :: 0 <= i < |s| ==> s[i].number > 0)
    && (forall i, j :: 0 <= i < j < |s| ==> s[i].number < s[j].number)
  }

  lemma Positive(s: seq<Point>, i: nat)
    requires Ascending(s) && i < |s|
    ensures s[i].number > 0
  {
  }

  lemma InOrder(p: seq<Point>, i: nat, j: nat)
    requires Ascending(p) && i < j < |p|
    ensures p[i].number < p[j].number
  {
  }

  ghost predicate AllAbove(s: seq<Point>, n: int) { forall i :: 0 <= i < |s| ==> s[i].number > n }

  ghost predicate NoneAbove(s: seq<Point>, n: u64) { forall i :: 0 <= i < |s| ==> s[i].number <= n }

  function Points(ring: seq<Entry>): (r: seq<Point>)
    ensures |r| == |ring| && forall i :: 0 <= i < |r| ==> r[i] == ring[i].point
  {
    seq(|ring|, i requires 0 <= i < |ring| => ring[i].point)
  }

  function Top(s: seq<Point>): u64 { if s == [] then 0 else s[|s| - 1].number }

  function Newest<T>(s: seq<T>, n: nat): (r: seq<T>)
    ensures |r| == if |s| > n then n else |s|
  {
    if |s| > n then s[|s| - n..] else s
  }

  function UpTo(s: seq<Point>, n: u64): seq<Point>
    decreases |s|
  {
    if s == [] then []
    else UpTo(s[..|s| - 1], n) + if s[|s| - 1].number <= n then [s[|s| - 1]] else []
  }

  function Above(s: seq<Entry>, n: u64): seq<Entry>
    decreases |s|
  {
    if s == [] then []
    else Above(s[..|s| - 1], n) + if s[|s| - 1].point.number > n then [s[|s| - 1]] else []
  }

  lemma AboveNothing(s: seq<Entry>, n: u64)
    ensures Above(s[..0], n) == [] && Points([]) == []
  {
  }

  lemma AboveMore(s: seq<Entry>, i: nat, n: u64)
    requires i < |s|
    ensures var more := if s[i].point.number > n then [s[i]] else [];
            && Above(s[..i + 1], n) == Above(s[..i], n) + more
            && Points(Above(s[..i + 1], n)) == Points(Above(s[..i], n)) + Points(more)
    ensures Points([s[i]]) == [s[i].point]
  {
    assert s[..i + 1][..i] == s[..i];
  }

  // ----- the ring -----

  ghost predicate Known(ring: seq<Entry>, i: nat, rows: seq<Entry>)
    requires i < |ring|
  {
    exists j :: 0 <= j < |rows| && rows[j].point.number == ring[i].point.number && rows[j].hash == ring[i].hash
  }

  /** How many of the ring's entries survive: up to the highest one the table still holds. */
  ghost predicate Keeps(ring: seq<Entry>, rows: seq<Entry>, keep: nat) {
    && keep <= |ring|
    && (keep > 0 ==> Known(ring, keep - 1, rows))
    && (forall i :: keep <= i < |ring| ==> !Known(ring, i, rows))
  }

  ghost predicate OnTip(ring: seq<Entry>, rows: seq<Entry>) {
    ring != [] ==> (
        && rows != []
        && rows[0].point.number == ring[|ring| - 1].point.number
        && rows[0].hash == ring[|ring| - 1].hash)
  }

  /** Canonical rows above the kept part's tip replace the rest. */
  ghost predicate Reorganised(kept: seq<Entry>, rows: seq<Entry>, next: seq<Entry>, d: Delta) {
    var ancestor := Top(Points(kept));
    d == Reorg(ancestor, Points(Above(rows, ancestor))) && next == Newest(kept + Above(rows, ancestor), RING_SIZE)
  }

  ghost predicate ReorgStep(ring: seq<Entry>, recent: seq<Entry>, next: seq<Entry>, d: Delta) {
    exists keep: nat :: Keeps(ring, recent, keep) && Reorganised(ring[..keep], recent, next, d)
  }

  /** What one refresh does to the ring and what it reports. `rows` were read from the ring's tip on (or
      the newest 1200 for an empty ring), `recent` are the newest 1500 read if the tip was gone. */
  ghost predicate Refreshed(ring: seq<Entry>, rows: seq<Entry>, recent: seq<Entry>, next: seq<Entry>, d: Delta) {
    if OnTip(ring, rows) then
      var added := Above(rows, Top(Points(ring)));
      next == Newest(ring + added, RING_SIZE) && d == Append(Points(added))
    else
      ReorgStep(ring, recent, next, d)
  }

  /** What the store's two queries promise: rows in ascending order, none below the tip asked from. */
  ghost predicate Readable(ring: seq<Entry>, rows: seq<Entry>, recent: seq<Entry>) {
    && Ascending(Points(rows)) && Ascending(Points(recent)) && |recent| <= RING_SIZE
    && (ring == [] ==> |rows| <= HELLO_BLOCKS)
    && (ring != [] ==> AllAbove(Points(rows), Top(Points(ring)) - 1))
  }

  class NetState {
    var blocks: seq<Entry>
    var last: u64

    ghost predicate Valid() reads this {
      && last == Top(Points(blocks))
      && |blocks| <= RING_SIZE
      && Ascending(Points(blocks))
    }

    constructor ()
      ensures Valid() && blocks == []
    {
      blocks, last := [], 0;
    }

    method Trim()
      modifies this
      ensures blocks == Newest(old(blocks), RING_SIZE) && last == Top(Points(blocks))
    {
      if |blocks| > RING_SIZE { blocks := blocks[|blocks| - RING_SIZE..]; }
      last := 0;
      if |blocks| > 0 { last := blocks[|blocks| - 1].point.number; }
    }

    /** The loop that appends what the ring does not hold yet; `last` moves only in Trim. */
    method Extend(rows: seq<Entry>) returns (added: seq<Point>)
      requires Valid() && Ascending(Points(rows))
      modifies this`blocks
      ensures blocks == old(blocks) + Above(rows, last)
      ensures added == Points(Above(rows, last))
    {
      hide Ascending, Above, Points;
      added := [];
      AboveNothing(rows, last);
      var i := 0;
      while i < |rows|
        invariant 0 <= i <= |rows|
        invariant blocks == old(blocks) + Above(rows[..i], last)
        invariant added == Points(Above(rows[..i], last))
      {
        AboveMore(rows, i, last);
        Positive(Points(rows), i);
        if |blocks| > 0 && rows[i].point.number <= last {
        } else {
          added := added + [rows[i].point];
          blocks := blocks + [rows[i]];
        }
        i := i + 1;
      }
      assert rows[..i] == rows;
    }

    /** The scan down the ring for the highest entry the table still holds. */
    method Agreeing(rows: seq<Entry>) returns (keep: nat)
      ensures keep <= |blocks| && Keeps(blocks, rows, keep)
    {
      var i := |blocks|;
      while i > 0
        invariant 0 <= i <= |blocks|
        invariant forall k :: i <= k < |blocks| ==> !Known(blocks, k, rows)
      {
        var j := 0;
        while j < |rows| && !(rows[j].point.number == blocks[i - 1].point.number && rows[j].hash == blocks[i - 1].hash)
          invariant 0 <= j <= |rows|
          invariant forall k :: 0 <= k < j ==>
            !(rows[k].point.number == blocks[i - 1].point.number && rows[k].hash == blocks[i - 1].hash)
        {
          j := j + 1;
        }
        if j < |rows| { return i; }
        i := i - 1;
      }
      return 0;
    }

    method Replace(rows: seq<Entry>, ancestor: u64) returns (replaced: seq<Point>)
      modifies this`blocks
      ensures blocks == old(blocks) + Above(rows, ancestor)
      ensures replaced == Points(Above(rows, ancestor))
    {
      hide Above, Points;
      replaced := [];
      AboveNothing(rows, ancestor);
      var i := 0;
      while i < |rows|
        invariant 0 <= i <= |rows|
        invariant blocks == old(blocks) + Above(rows[..i], ancestor)
        invariant replaced == Points(Above(rows[..i], ancestor))
      {
        AboveMore(rows, i, ancestor);
        if rows[i].point.number > ancestor {
          replaced := replaced + [rows[i].point];
          blocks := blocks + [rows[i]];
        }
        i := i + 1;
      }
      assert rows[..i] == rows;
    }

    method Cut(keep: nat) returns (ancestor: u64)
      requires keep <= |blocks|
      modifies this`blocks
      ensures blocks == old(blocks)[..keep] && ancestor == Top(Points(blocks))
    {
      ancestor := 0;
      if keep > 0 { ancestor := blocks[keep - 1].point.number; }
      blocks := blocks[..keep];
    }

    method ReorgRing(rows: seq<Entry>) returns (d: Delta)
      modifies this
      ensures ReorgStep(old(blocks), rows, blocks, d)
      ensures last == Top(Points(blocks))
    {
      hide Above, Keeps, Known, Newest, Top, Points;
      var keep := Agreeing(rows);
      var ancestor := Cut(keep);
      ghost var kept := blocks;
      var replaced := Replace(rows, ancestor);
      Trim();
      d := Reorg(ancestor, replaced);
      assert Reorganised(kept, rows, blocks, d);
    }

    method RefreshBlocks(rows: seq<Entry>, recent: seq<Entry>) returns (d: Delta)
      requires Valid() && Readable(blocks, rows, recent)
      modifies this
      ensures Valid()
      ensures Refreshed(old(blocks), rows, recent, blocks, d)
    {
      ghost var was := blocks;
      if |blocks| > 0 && (|rows| == 0 || rows[0].point.number != last || rows[0].hash != blocks[|blocks| - 1].hash) {
        d := ReorgRing(recent);
      } else {
        var added := Extend(rows);
        Trim();
        d := Append(added);
      }
      RefreshKeepsRing(was, rows, recent, blocks, d);
    }
  }

  // ----- one client -----

  /** A client as the hub holds it. */
  datatype Mail = Mail(queue: seq<Message>, watermark: u64, closed: bool, dropped: bool)

  /** A closing client takes nothing more; a full queue drops it. */
  function Enqueued(m: Mail, msg: Message): Mail {
    if m.closed then m
    else if |m.queue| < CLIENT_QUEUE then m.(queue := m.queue + [msg])
    else m.(closed := true, dropped := true)
  }

  /** The blocks left once the prefix the hello already carried is gone. */
  function Unsent(blocks: seq<Point>, watermark: u64): seq<Point>
    decreases |blocks|
  {
    if blocks != [] && blocks[0].number <= watermark then Unsent(blocks[1..], watermark) else blocks
  }

  lemma {:induction false} UnsentFrom(blocks: seq<Point>, watermark: u64, i: nat)
    requires i <= |blocks| && forall k :: 0 <= k < i ==> blocks[k].number <= watermark
    requires i < |blocks| ==> blocks[i].number > watermark
    ensures Unsent(blocks, watermark) == blocks[i..]
    decreases i
  {
    if i > 0 {
      UnsentFrom(blocks[1..], watermark, i - 1);
      assert blocks[1..][i - 1..] == blocks[i..];
    }
  }

  lemma {:induction false} UnsentTop(blocks: seq<Point>, watermark: u64)
    ensures Unsent(blocks, watermark) != [] ==> Top(Unsent(blocks, watermark)) == Top(blocks)
    decreases |blocks|
  {
    if blocks != [] && blocks[0].number <= watermark { UnsentTop(blocks[1..], watermark); }
  }

  function BlocksSent(m: Mail, blocks: seq<Point>): Mail {
    var left := Unsent(blocks, m.watermark);
    if left == [] then m else Enqueued(m.(watermark := left[|left| - 1].number), Blocks(left))
  }

  function Lowered(m: Mail, ancestor: u64): Mail {
    m.(watermark := if m.watermark < ancestor then m.watermark else ancestor)
  }

  function Fanned(m: Mail, d: Delta, tick: bool): Mail {
    var m1 := if d.Reorg? then Enqueued(Lowered(m, d.ancestor), Replace(d.ancestor, d.blocks)) else m;
    var m2 := if tick then Enqueued(m1, Tick) else m1;
    if d.Append? && d.blocks != [] then BlocksSent(m2, d.blocks) else m2
  }

  function Subscribed(m: Mail, ring: seq<Entry>): Mail {
    var recent := Newest(Points(ring), HELLO_BLOCKS);
    Enqueued(m.(watermark := Top(recent)), Hello(recent))
  }

  class Client {
    var queue: seq<Message>
    var watermark: u64
    var closed: bool
    var dropped: bool

    ghost function Value(): Mail reads this { Mail(queue, watermark, closed, dropped) }

    constructor ()
      ensures Value() == Mail([], 0, false, false)
    {
      queue, watermark, closed, dropped := [], 0, false, false;
    }

    method Enqueue(msg: Message)
      modifies this
      ensures Value() == Enqueued(old(Value()), msg)
      ensures watermark == old(watermark)
      ensures old(!closed && |queue| < CLIENT_QUEUE) ==> queue == old(queue) + [msg] && !closed && dropped == old(dropped)
      ensures old(!closed && |queue| >= CLIENT_QUEUE) ==> queue == old(queue) && closed && dropped
      ensures old(closed) ==> queue == old(queue) && closed && dropped == old(dropped)
    {
      if closed { return; }
      if |queue| < CLIENT_QUEUE { queue := queue + [msg]; } else { dropped, closed := true, true; }
    }

    method DeliverBlocks(blocks: seq<Point>)
      modifies this
      ensures Value() == BlocksSent(old(Value()), blocks)
    {
      hide Unsent;
      var i := 0;
      while i < |blocks| && blocks[i].number <= watermark
        invariant 0 <= i <= |blocks|
        invariant forall k :: 0 <= k < i ==> blocks[k].number <= watermark
      {
        i := i + 1;
      }
      UnsentFrom(blocks, watermark, i);
      var left := blocks[i..];
      if |left| == 0 { return; }
      watermark := left[|left| - 1].number;
      Enqueue(Blocks(left));
    }

    method FanOne(d: Delta, tick: bool)
      modifies this
      ensures Value() == Fanned(old(Value()), d, tick)
    {
      if d.Reorg? {
        if d.ancestor <= watermark { watermark := d.ancestor; }
        Enqueue(Replace(d.ancestor, d.blocks));
      }
      if tick { Enqueue(Tick); }
      if d.Append? && |d.blocks| > 0 { DeliverBlocks(d.blocks); }
    }

    method Subscribe(ring: seq<Entry>)
      modifies this
      ensures Value() == Subscribed(old(Value()), ring)
    {
      var recent := Points(ring);
      if |recent| > HELLO_BLOCKS { recent := recent[|recent| - HELLO_BLOCKS..]; }
      watermark := 0;
      if |recent| > 0 { watermark := recent[|recent| - 1].number; }
      Enqueue(Hello(recent));
    }
  }

  /** Clients are visited in no particular order. */
  method FanOut(clients: set<Client>, d: Delta, tick: bool)
    modifies clients
    ensures forall c :: c in clients ==> c.Value() == Fanned(old(c.Value()), d, tick)
  {
    var left := clients;
    while left != {}
      invariant left <= clients
      invariant forall c :: c in left ==> c.Value() == old(c.Value())
      invariant forall c :: c in clients && c !in left ==> c.Value() == Fanned(old(c.Value()), d, tick)
      decreases |left|
    {
      var c :| c in left;
      left := left - {c};
      c.FanOne(d, tick);
    }
  }

  // ----- what a client makes of its messages -----

  function Received(view: seq<Point>, m: Message): seq<Point> {
    match m
    case Hello(recent) => recent
    case Blocks(blocks) => view + blocks
    case Replace(ancestor, canonical) => UpTo(view, ancestor) + canonical
    case Tick => view
  }

  function ReceivedAll(view: seq<Point>, queue: seq<Message>): seq<Point>
    decreases |queue|
  {
    if queue == [] then view else Received(ReceivedAll(view, queue[..|queue| - 1]), queue[|queue| - 1])
  }

  lemma ReceiveOneMore(view: seq<Point>, queue: seq<Message>, m: Message)
    ensures ReceivedAll(view, queue + [m]) == Received(ReceivedAll(view, queue), m)
  {
    assert (queue + [m])[..|queue|] == queue;
  }

  /** Taking the first message off the queue does not change where the client is heading. */
  lemma {:induction false} ReadingHead(view: seq<Point>, queue: seq<Message>)
    requires queue != []
    ensures ReceivedAll(Received(view, queue[0]), queue[1..]) == ReceivedAll(view, queue)
    decreases |queue|
  {
    var front := queue[..|queue| - 1];
    if front == [] {
      assert queue[1..] == [];
    } else {
      assert queue[1..][..|queue| - 2] == front[1..];
      ReadingHead(view, front);
    }
  }

  // ----- suffixes -----

  ghost predicate Suffix(a: seq<Point>, b: seq<Point>) { |a| <= |b| && a == b[|b| - |a|..] }

  /** One reaches further back, and they are the same otherwise. */
  ghost predicate Related(a: seq<Point>, b: seq<Point>) { Suffix(a, b) || Suffix(b, a) }

  lemma SuffixTrans(a: seq<Point>, b: seq<Point>, c: seq<Point>)
    requires Suffix(a, b) && Suffix(b, c)
    ensures Suffix(a, c)
  {
  }

  lemma CommonSuffix(a: seq<Point>, b: seq<Point>, c: seq<Point>)
    requires Suffix(a, c) && Suffix(b, c)
    ensures Related(a, b)
  {
    if |a| <= |b| {
      assert a == b[|b| - |a|..];
    } else {
      assert b == a[|a| - |b|..];
    }
  }

  lemma SuffixExtended(a: seq<Point>, b: seq<Point>, x: seq<Point>)
    requires Suffix(a, b)
    ensures Suffix(a + x, b + x)
  {
    assert (b + x)[|b + x| - |a + x|..] == b[|b| - |a|..] + x;
  }

  lemma {:induction false} UpToConcat(a: seq<Point>, b: seq<Point>, n: u64)
    ensures UpTo(a + b, n) == UpTo(a, n) + UpTo(b, n)
    decreases |b|
  {
    if b == [] {
      assert a + b == a;
    } else {
      var front := b[..|b| - 1];
      assert (a + b)[..|a + b| - 1] == a + front;
      UpToConcat(a, front, n);
    }
  }

  lemma SuffixCut(a: seq<Point>, b: seq<Point>, n: u64)
    requires Suffix(a, b)
    ensures Suffix(UpTo(a, n), UpTo(b, n))
  {
    var front := b[..|b| - |a|];
    assert b == front + a;
    UpToConcat(front, a, n);
    var c := UpTo(front, n) + UpTo(a, n);
    assert c[|c| - |UpTo(a, n)|..] == UpTo(a, n);
  }

  lemma {:induction false} CutNothing(s: seq<Point>, n: u64)
    requires NoneAbove(s, n)
    ensures UpTo(s, n) == s
    decreases |s|
  {
    if s != [] {
      CutNothing(s[..|s| - 1], n);
      assert s == s[..|s| - 1] + [s[|s| - 1]];
    }
  }

  lemma {:induction false} CutAll(s: seq<Point>, n: u64)
    requires AllAbove(s, n)
    ensures UpTo(s, n) == []
    decreases |s|
  {
    if s != [] { CutAll(s[..|s| - 1], n); }
  }

  /** A client that forgets its oldest blocks holds, after any message, the newest part of what it would have held. */
  lemma ForgettingIsHarmless(a: seq<Point>, b: seq<Point>, m: Message)
    requires Suffix(a, b)
    ensures Suffix(Received(a, m), Received(b, m))
  {
    match m
    case Hello(_) =>
    case Tick =>
    case Blocks(x) => SuffixExtended(a, b, x);
    case Replace(n, x) => SuffixCut(a, b, n); SuffixExtended(UpTo(a, n), UpTo(b, n), x);
  }

  // ----- what a refresh means, in points alone -----

  function Base(before: seq<Point>, d: Delta): seq<Point> {
    match d
    case Append(_) => before
    case Reorg(ancestor, _) => UpTo(before, ancestor)
  }

  /** The delta turns one ring into the other. */
  ghost predicate LeadsTo(before: seq<Point>, d: Delta, next: seq<Point>) {
    && next == Newest(Base(before, d) + d.blocks, RING_SIZE)
    && Ascending(d.blocks)
    && (d.Append? ==> AllAbove(d.blocks, Top(before)))
    && (d.Reorg? ==> AllAbove(d.blocks, d.ancestor) && d.ancestor == Top(UpTo(before, d.ancestor)))
  }

  lemma {:induction false} AboveConcat(a: seq<Entry>, b: seq<Entry>, n: u64)
    ensures Above(a + b, n) == Above(a, n) + Above(b, n)
    decreases |b|
  {
    if b == [] {
      assert a + b == a;
    } else {
      var front := b[..|b| - 1];
      assert (a + b)[..|a + b| - 1] == a + front;
      AboveConcat(a, front, n);
    }
  }

  lemma {:induction false} AboveNone(s: seq<Entry>, n: u64)
    requires forall i :: 0 <= i < |s| ==> s[i].point.number <= n
    ensures Above(s, n) == []
    decreases |s|
  {
    if s != [] { AboveNone(s[..|s| - 1], n); }
  }

  lemma {:induction false} AboveAll(s: seq<Entry>, n: u64)
    requires forall i :: 0 <= i < |s| ==> s[i].point.number > n
    ensures Above(s, n) == s
    decreases |s|
  {
    if s != [] {
      AboveAll(s[..|s| - 1], n);
      assert s == s[..|s| - 1] + [s[|s| - 1]];
    }
  }

  lemma TailIsAbove(s: seq<Entry>, n: u64, k: nat)
    requires Ascending(Points(s)) && k <= |s|
    requires forall i :: 0 <= i < k ==> s[i].point.number <= n
    requires k < |s| ==> s[k].point.number > n
    ensures Above(s, n) == s[k..] && forall i :: k <= i < |s| ==> s[i].point.number > n
  {
    hide Above, Points, Ascending;
    forall i | k < i < |s| ensures s[i].point.number > n { InOrder(Points(s), k, i); }
    AboveConcat(s[..k], s[k..], n);
    AboveNone(s[..k], n);
    AboveAll(s[k..], n);
    assert s[..k] + s[k..] == s;
    assert [] + s[k..] == s[k..];
  }

  /** Of ascending rows, those above a number are a tail. */
  lemma AboveIsTail(s: seq<Entry>, n: u64) returns (k: nat)
    requires Ascending(Points(s))
    ensures k <= |s| && Above(s, n) == s[k..]
    ensures forall i :: k <= i < |s| ==> s[i].point.number > n
  {
    hide Above, Points, Ascending;
    k := 0;
    while k < |s| && s[k].point.number <= n
      invariant k <= |s|
      invariant forall i :: 0 <= i < k ==> s[i].point.number <= n
    {
      k := k + 1;
    }
    TailIsAbove(s, n, k);
  }

  lemma AboveFacts(s: seq<Entry>, n: u64)
    requires Ascending(Points(s))
    ensures Ascending(Points(Above(s, n))) && AllAbove(Points(Above(s, n)), n)
  {
    var k := AboveIsTail(s, n);
    assert Points(s[k..]) == Points(s)[k..];
  }

  /** Cutting an ascending sequence at a number is cutting it at a position. */
  lemma CutAt(s: seq<Point>, n: u64, k: nat)
    requires Ascending(s) && k <= |s|
    requires k > 0 ==> s[k - 1].number <= n
    requires k < |s| ==> s[k].number > n
    ensures UpTo(s, n) == s[..k] && NoneAbove(s[..k], n)
  {
    hide UpTo, Ascending;
    forall i | 0 <= i < k - 1 ensures s[i].number <= n { InOrder(s, i, k - 1); }
    forall i | k < i < |s| ensures s[i].number > n { InOrder(s, k, i); }
    UpToConcat(s[..k], s[k..], n);
    CutNothing(s[..k], n);
    CutAll(s[k..], n);
    assert s[..k] + s[k..] == s;
    assert s[..k] + [] == s[..k];
  }

  lemma CutAtKeep(ring: seq<Entry>, keep: nat)
    requires Ascending(Points(ring)) && keep <= |ring|
    ensures UpTo(Points(ring), Top(Points(ring[..keep]))) == Points(ring[..keep])
    ensures Top(Points(ring[..keep])) <= Top(Points(ring))
  {
    hide UpTo, Points;
    var p, n := Points(ring), Top(Points(ring[..keep]));
    assert Points(ring[..keep]) == p[..keep];
    CutAt(p, n, keep);
  }

  lemma PointsOfNewest(a: seq<Entry>, b: seq<Entry>, n: nat)
    ensures Points(Newest(a + b, n)) == Newest(Points(a) + Points(b), n)
  {
    assert Points(a + b) == Points(a) + Points(b);
    assert Points(Newest(a + b, n)) == Newest(Points(a + b), n);
  }

  lemma RefreshLeads(ring: seq<Entry>, rows: seq<Entry>, recent: seq<Entry>, next: seq<Entry>, d: Delta)
    requires Ascending(Points(ring)) && Readable(ring, rows, recent)
    requires Refreshed(ring, rows, recent, next, d)
    ensures LeadsTo(Points(ring), d, Points(next))
  {
    if OnTip(ring, rows) {
      var added := Above(rows, Top(Points(ring)));
      AboveFacts(rows, Top(Points(ring)));
      PointsOfNewest(ring, added, RING_SIZE);
    } else {
      var keep: nat :| Keeps(ring, recent, keep) && Reorganised(ring[..keep], recent, next, d);
      var n := Top(Points(ring[..keep]));
      AboveFacts(recent, n);
      CutAtKeep(ring, keep);
      PointsOfNewest(ring[..keep], Above(recent, n), RING_SIZE);
    }
  }

  lemma CutFacts(s: seq<Point>, n: u64)
    requires Ascending(s)
    ensures Ascending(UpTo(s, n)) && NoneAbove(UpTo(s, n), n)
  {
    hide UpTo;
    var k := 0;
    while k < |s| && s[k].number <= n
      invariant k <= |s| && (k > 0 ==> s[k - 1].number <= n)
    {
      k := k + 1;
    }
    CutAt(s, n, k);
  }

  lemma AscendingJoin(a: seq<Point>, b: seq<Point>, n: u64)
    requires Ascending(a) && Ascending(b) && NoneAbove(a, n) && AllAbove(b, n)
    ensures Ascending(a + b)
  {
  }

  lemma TopBoundsAll(a: seq<Point>)
    requires Ascending(a)
    ensures NoneAbove(a, Top(a))
  {
  }

  lemma LeadsKeepsAscending(before: seq<Point>, d: Delta, next: seq<Point>)
    requires Ascending(before) && LeadsTo(before, d, next)
    ensures Ascending(next) && Ascending(Base(before, d) + d.blocks)
  {
    var n := if d.Append? then Top(before) else d.ancestor;
    if d.Append? { TopBoundsAll(before); } else { CutFacts(before, n); }
    AscendingJoin(Base(before, d), d.blocks, n);
  }

  lemma RefreshKeepsRing(ring: seq<Entry>, rows: seq<Entry>, recent: seq<Entry>, next: seq<Entry>, d: Delta)
    requires Ascending(Points(ring)) && Readable(ring, rows, recent)
    requires Refreshed(ring, rows, recent, next, d)
    ensures Ascending(Points(next)) && |next| <= RING_SIZE
  {
    RefreshLeads(ring, rows, recent, next, d);
    LeadsKeepsAscending(Points(ring), d, Points(next));
  }

  // ----- one client against the ring -----

  /** Where an open client is heading once it has read its queue. */
  ghost predicate Follows(heading: seq<Point>, watermark: u64, ring: seq<Point>) {
    && Ascending(heading)
    && Related(heading, ring)
    && (ring == [] ==> heading == [])
    && watermark <= Top(ring)
  }

  /** A client that registered between the update and its fan-out: it has the new ring already. */
  ghost predicate HasHello(heading: seq<Point>, watermark: u64, ring: seq<Point>) {
    heading == Newest(ring, HELLO_BLOCKS) && watermark == Top(ring)
  }

  function Heading(view: seq<Point>, m: Mail): seq<Point> { ReceivedAll(view, m.queue) }

  lemma EnqueuedHeading(view: seq<Point>, m: Mail, msg: Message)
    ensures !Enqueued(m, msg).closed ==> !m.closed && Heading(view, Enqueued(m, msg)) == Received(Heading(view, m), msg)
    ensures Enqueued(m, msg).watermark == m.watermark
  {
    ReceiveOneMore(view, m.queue, msg);
  }

  /** What a fan-out does to where a client is heading. */
  function Moved(heading: seq<Point>, watermark: u64, d: Delta): seq<Point> {
    match d
    case Append(blocks) => heading + Unsent(blocks, watermark)
    case Reorg(ancestor, blocks) => UpTo(heading, ancestor) + blocks
  }

  lemma BlocksSentHeading(view: seq<Point>, m: Mail, blocks: seq<Point>)
    requires !BlocksSent(m, blocks).closed
    ensures !m.closed && Heading(view, BlocksSent(m, blocks)) == Heading(view, m) + Unsent(blocks, m.watermark)
    ensures BlocksSent(m, blocks).watermark == if Unsent(blocks, m.watermark) == [] then m.watermark else Top(blocks)
  {
    hide ReceivedAll, Unsent;
    var left := Unsent(blocks, m.watermark);
    UnsentTop(blocks, m.watermark);
    if left == [] {
      assert Heading(view, m) + left == Heading(view, m);
    } else {
      EnqueuedHeading(view, m.(watermark := left[|left| - 1].number), Blocks(left));
    }
  }

  lemma FannedHeading(view: seq<Point>, m: Mail, d: Delta, tick: bool)
    requires !Fanned(m, d, tick).closed
    ensures !m.closed && Heading(view, Fanned(m, d, tick)) == Moved(Heading(view, m), m.watermark, d)
    ensures d.Append? ==> Fanned(m, d, tick).watermark ==
                          (if Unsent(d.blocks, m.watermark) == [] then m.watermark else Top(d.blocks))
    ensures d.Reorg? ==> Fanned(m, d, tick).watermark <= d.ancestor && Fanned(m, d, tick).watermark <= m.watermark
  {
    hide ReceivedAll;
    if d.Reorg? {
      var low := Lowered(m, d.ancestor);
      var msg := Replace(d.ancestor, d.blocks);
      EnqueuedHeading(view, low, msg);
      EnqueuedHeading(view, Enqueued(low, msg), Tick);
    } else {
      hide Enqueued, BlocksSent, Unsent;
      EnqueuedHeading(view, m, Tick);
      var m2 := if tick then Enqueued(m, Tick) else m;
      BlocksSentHeading(view, m2, d.blocks);
      assert d.blocks == [] ==> Heading(view, m) + [] == Heading(view, m);
    }
  }

  lemma UnsentAll(blocks: seq<Point>, watermark: u64)
    requires AllAbove(blocks, watermark)
    ensures Unsent(blocks, watermark) == blocks
  {
  }

  lemma UnsentNone(blocks: seq<Point>, watermark: u64)
    requires NoneAbove(blocks, watermark)
    ensures Unsent(blocks, watermark) == []
  {
    UnsentFrom(blocks, watermark, |blocks|);
  }

  lemma RelatedMoves(a: seq<Point>, before: seq<Point>, d: Delta)
    requires Related(a, before)
    ensures Related(Base(a, d) + d.blocks, Base(before, d) + d.blocks)
  {
    if d.Reorg? {
      if Suffix(a, before) { SuffixCut(a, before, d.ancestor); } else { SuffixCut(before, a, d.ancestor); }
    }
    if Suffix(Base(a, d), Base(before, d)) {
      SuffixExtended(Base(a, d), Base(before, d), d.blocks);
    } else {
      SuffixExtended(Base(before, d), Base(a, d), d.blocks);
    }
  }

  lemma RelatedTrim(a: seq<Point>, b: seq<Point>, n: nat)
    requires Related(a, b)
    ensures Related(a, Newest(b, n))
  {
    if Suffix(a, b) { CommonSuffix(a, Newest(b, n), b); } else { SuffixTrans(Newest(b, n), b, a); }
  }

  /** A client that followed the ring before the update follows the new one after the fan-out. */
  lemma FanOutFollows(heading: seq<Point>, watermark: u64, before: seq<Point>, d: Delta, next: seq<Point>)
    requires Ascending(before) && LeadsTo(before, d, next) && Follows(heading, watermark, before)
    ensures Related(Moved(heading, watermark, d), next) && Ascending(Moved(heading, watermark, d))
    ensures next == [] ==> Moved(heading, watermark, d) == []
    ensures d.Append? ==> Unsent(d.blocks, watermark) == d.blocks
  {
    hide UpTo, Ascending, Unsent, Related, Suffix, AllAbove, Newest;
    if d.Append? { UnsentAllOf(d, watermark, before); }
    FollowRelated(heading, before, d);
    MovesAscending(heading, before, d);
    if next == [] {
      EmptiedTogether(heading, before, d);
    }
  }

  lemma FollowRelated(heading: seq<Point>, before: seq<Point>, d: Delta)
    requires Related(heading, before)
    ensures Related(Base(heading, d) + d.blocks, Newest(Base(before, d) + d.blocks, RING_SIZE))
  {
    hide Base, Related, Newest;
    RelatedMoves(heading, before, d);
    RelatedTrim(Base(heading, d) + d.blocks, Base(before, d) + d.blocks, RING_SIZE);
  }

  lemma UnsentAllOf(d: Delta, watermark: u64, before: seq<Point>)
    requires d.Append? && AllAbove(d.blocks, Top(before)) && watermark <= Top(before)
    ensures Unsent(d.blocks, watermark) == d.blocks
  {
    UnsentAll(d.blocks, watermark);
  }

  lemma MovesAscending(heading: seq<Point>, before: seq<Point>, d: Delta)
    requires Ascending(before) && Ascending(heading) && Related(heading, before) && (before == [] ==> heading == [])
    requires Ascending(d.blocks) && AllAbove(d.blocks, if d.Append? then Top(before) else d.ancestor)
    ensures Ascending(Base(heading, d) + d.blocks)
  {
    hide UpTo, Ascending;
    var n := if d.Append? then Top(before) else d.ancestor;
    if d.Append? { SameTop(heading, before); } else { CutFacts(heading, n); }
    AscendingJoin(Base(heading, d), d.blocks, n);
  }

  lemma NewestEmpty(a: seq<Point>, b: seq<Point>)
    requires Newest(a + b, RING_SIZE) == []
    ensures a == [] && b == []
  {
    assert |a + b| == 0;
  }

  lemma EmptiedTogether(heading: seq<Point>, before: seq<Point>, d: Delta)
    requires Ascending(heading) && (before == [] ==> heading == []) && Newest(Base(before, d) + d.blocks, RING_SIZE) == []
    requires d.Reorg? ==> d.ancestor == Top(UpTo(before, d.ancestor))
    ensures Base(heading, d) + d.blocks == []
  {
    NewestEmpty(Base(before, d), d.blocks);
    if d.Reorg? { CutAll(heading, 0); }
  }

  lemma SameTop(a: seq<Point>, b: seq<Point>)
    requires Ascending(a) && Ascending(b) && Related(a, b) && (b == [] ==> a == [])
    ensures NoneAbove(a, Top(b))
  {
    TopBoundsAll(a);
    if a != [] && b != [] {
      assert a[|a| - 1] == b[|b| - 1];
    }
  }
}
