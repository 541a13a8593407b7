/** What the hub does for its clients beyond keeping them right: who is served and who is dropped, message by message, and
    that a refresh brings the ring to the table's tip (internal/api/ws.go). */
module HubService {
  import opened Words
  import opened Hub
  import opened HubRuns

  // ----- one message -----

  /** The only way a message closes a client: it was open with a full queue. */
  lemma EnqueuedExactly(m: Mail, msg: Message)
    ensures var e := Enqueued(m, msg);
            && e.watermark == m.watermark
            && (m.closed ==> e == m)
            && (!m.closed && |m.queue| < CLIENT_QUEUE ==> e.queue == m.queue + [msg] && !e.closed && e.dropped == m.dropped)
            && (!m.closed && |m.queue| >= CLIENT_QUEUE ==> e.queue == m.queue && e.closed && e.dropped)
  {
  }

  /** What is left of a blocks message: the part from the first block above the watermark. */
  lemma UnsentExactly(blocks: seq<Point>, watermark: u64) returns (k: nat)
    requires Ascending(blocks)
    ensures k <= |blocks| && Unsent(blocks, watermark) == blocks[k..]
    ensures NoneAbove(blocks[..k], watermark) && AllAbove(blocks[k..], watermark)
  {
    k := 0;
    while k < |blocks| && blocks[k].number <= watermark
      invariant k <= |blocks| && NoneAbove(blocks[..k], watermark)
    {
      assert blocks[..k + 1] == blocks[..k] + [blocks[k]];
      k := k + 1;
    }
    UnsentFrom(blocks, watermark, k);
  }

  // ----- one fan-out -----

  /** The messages a fan-out has for a client, in order. */
  ghost function Due(m: Mail, d: Delta, tick: bool): seq<Message> {
    (if d.Reorg? then [Message.Replace(d.ancestor, d.blocks)] else [])
    + (if tick then [Tick] else [])
    + (if d.Append? && Unsent(d.blocks, m.watermark) != [] then [Blocks(Unsent(d.blocks, m.watermark))] else [])
  }

  /** As many of them as the queue has room for. */
  ghost function Room(m: Mail, due: seq<Message>): nat {
    if |m.queue| + |due| <= CLIENT_QUEUE then |due| else if |m.queue| <= CLIENT_QUEUE then CLIENT_QUEUE - |m.queue| else 0
  }

  ghost function Seen(m: Mail, d: Delta): u64 {
    if d.Reorg? then (if d.ancestor < m.watermark then d.ancestor else m.watermark)
    else if Unsent(d.blocks, m.watermark) == [] then m.watermark else Top(d.blocks)
  }

  ghost function All(m: Mail, due: seq<Message>): Mail
    decreases |due|
  {
    if due == [] then m else Enqueued(All(m, due[..|due| - 1]), due[|due| - 1])
  }

  lemma {:induction false} AllExactly(m: Mail, due: seq<Message>)
    requires !m.closed && |m.queue| <= CLIENT_QUEUE
    ensures var e := All(m, due);
            && e.queue == m.queue + due[..Room(m, due)] && e.watermark == m.watermark
            && (e.closed <==> |m.queue| + |due| > CLIENT_QUEUE)
            && (e.dropped <==> m.dropped || e.closed)
    decreases |due|
  {
    if due == [] {
      assert m.queue + due[..Room(m, due)] == m.queue;
    } else {
      var n := |due| - 1;
      AllExactly(m, due[..n]);
      if |m.queue| + n < CLIENT_QUEUE {
        assert due[..n][..n] == due[..n];
        assert (m.queue + due[..n]) + [due[n]] == m.queue + due[..n + 1];
      } else {
        var k := Room(m, due);
        assert due[..n][..k] == due[..k];
      }
    }
  }

  lemma AllFew(m: Mail, x: Message, y: Message)
    ensures All(m, []) == m && All(m, [x]) == Enqueued(m, x) && All(m, [x, y]) == Enqueued(Enqueued(m, x), y)
  {
    hide Enqueued;
    assert [x][..0] == [] && [x, y][..1] == [x];
  }

  lemma EnqueuedAfter(m: Mail, w: u64, msg: Message)
    ensures Enqueued(m, msg).(watermark := w) == Enqueued(m.(watermark := w), msg)
  {
  }

  lemma FannedIsAll(m: Mail, d: Delta, tick: bool)
    ensures Fanned(m, d, tick) == All(m.(watermark := Seen(m, d)), Due(m, d, tick))
  {
    hide Unsent, All, Enqueued;
    var w := m.(watermark := Seen(m, d));
    if d.Reorg? {
      var msg := Message.Replace(d.ancestor, d.blocks);
      AllFew(w, msg, Tick);
      assert tick ==> Due(m, d, tick) == [msg, Tick];
      assert !tick ==> Due(m, d, tick) == [msg];
    } else {
      var left := Unsent(d.blocks, m.watermark);
      UnsentTop(d.blocks, m.watermark);
      AllFew(w, Tick, Blocks(left));
      AllFew(w, Blocks(left), Tick);
      EnqueuedAfter(m, Seen(m, d), Tick);
      EnqueuedExactly(m, Tick);
      UnsentOfNone(m.watermark);
      assert tick && left != [] ==> Due(m, d, tick) == [Tick, Blocks(left)];
      assert tick && left == [] ==> Due(m, d, tick) == [Tick];
      assert !tick && left != [] ==> Due(m, d, tick) == [Blocks(left)];
      assert !tick && left == [] ==> Due(m, d, tick) == [];
    }
  }

  lemma UnsentOfNone(watermark: u64)
    ensures Unsent([], watermark) == []
  {
  }

  /** A fan-out to an open client: it gains every message due to it and stays open if they fit its queue; otherwise it gains
      those that fit and is dropped. */
  lemma FanExactly(m: Mail, d: Delta, tick: bool)
    requires !m.closed && |m.queue| <= CLIENT_QUEUE
    ensures var e, due := Fanned(m, d, tick), Due(m, d, tick);
            && e.queue == m.queue + due[..Room(m, due)] && e.watermark == Seen(m, d)
            && (e.closed <==> |m.queue| + |due| > CLIENT_QUEUE)
            && (e.dropped <==> m.dropped || e.closed)
  {
    hide Fanned, Unsent, All, Due, Seen;
    FannedIsAll(m, d, tick);
    AllExactly(m.(watermark := Seen(m, d)), Due(m, d, tick));
  }

  // ----- every run -----

  /** The first hello reaches a fresh socket, with the newest blocks of the ring, whatever else is under way. */
  lemma FirstJoinServed(s: State, id: nat)
    requires id !in s.peers
    ensures var p := Next(s, Join(id)).peers[id];
            var recent := Newest(Points(s.ring), HELLO_BLOCKS);
            p.view == [] && p.mail == Mail([Hello(recent)], Top(recent), false, false) && p.late == s.pending.Some?
  {
  }

  ghost predicate Bounded(s: State) { forall id :: id in s.peers ==> |s.peers[id].mail.queue| <= CLIENT_QUEUE }

  lemma {:induction false} AllBounded(m: Mail, due: seq<Message>)
    requires |m.queue| <= CLIENT_QUEUE
    ensures |All(m, due).queue| <= CLIENT_QUEUE
    decreases |due|
  {
    if due != [] { AllBounded(m, due[..|due| - 1]); }
  }

  lemma StepBounded(s: State, step: Step)
    requires Bounded(s) && Enabled(s, step)
    ensures Bounded(Next(s, step))
  {
    hide Fanned, Refreshed, Readable;
    if step.Fan? {
      var d := s.pending.value;
      forall id | id in s.peers ensures |Fanned(s.peers[id].mail, d, step.tick).queue| <= CLIENT_QUEUE {
        var m := s.peers[id].mail;
        FannedIsAll(m, d, step.tick);
        AllBounded(m.(watermark := Seen(m, d)), Due(m, d, step.tick));
      }
    }
  }

  /** No queue ever holds more than its capacity. */
  lemma {:induction false} RunBounded(s: State, steps: seq<Step>)
    requires Bounded(s) && Possible(s, steps)
    ensures Bounded(After(s, steps))
    decreases |steps|
  {
    hide Bounded, Next;
    if steps != [] {
      StepBounded(s, steps[0]);
      RunBounded(Next(s, steps[0]), steps[1..]);
    }
  }

  /** What a step has for a client. */
  ghost function Offered(s: State, step: Step, id: nat): nat
    requires id in s.peers && Enabled(s, step)
  {
    match step
    case Fan(tick) => |Due(s.peers[id].mail, s.pending.value, tick)|
    case Join(j) => if j == id then 1 else 0
    case _ => 0
  }

  /** In any run, the hub closes an open client exactly when what it has for it does not fit the queue, and then drops it;
      only the client's own close closes it otherwise. */
  lemma ClosedExactlyWhen(steps: seq<Step>, step: Step, id: nat)
    requires Possible(EMPTY, steps) && Enabled(After(EMPTY, steps), step)
    requires var s := After(EMPTY, steps); id in s.peers && !s.peers[id].mail.closed
    requires step != Leave(id)
    ensures var s := After(EMPTY, steps);
            var t := Next(s, step);
            && id in t.peers
            && (t.peers[id].mail.closed <==> step == Close(id) || |s.peers[id].mail.queue| + Offered(s, step, id) > CLIENT_QUEUE)
            && (t.peers[id].mail.dropped <==> s.peers[id].mail.dropped || (t.peers[id].mail.closed && step != Close(id)))
  {
    RunBounded(EMPTY, steps);
    var s := After(EMPTY, steps);
    hide After, Possible, Fanned, Refreshed, Readable, Due, Unsent;
    assert |s.peers[id].mail.queue| <= CLIENT_QUEUE;
    match step
    case Fan(tick) => FanExactly(s.peers[id].mail, s.pending.value, tick);
    case _ =>
  }

  ghost function Reads(id: nat, n: nat): seq<Step> { seq(n, i => Read(id)) }

  /** A client that reads its whole queue holds what it was heading for and is as open as it was. */
  lemma {:induction false} Drained(s: State, id: nat)
    requires id in s.peers
    ensures var n := |s.peers[id].mail.queue|;
            && Possible(s, Reads(id, n))
            && var t := After(s, Reads(id, n));
               && id in t.peers
               && t.peers[id].view == Heading(s.peers[id].view, s.peers[id].mail)
               && t.peers[id].mail == s.peers[id].mail.(queue := [])
               && t == s.(peers := s.peers[id := t.peers[id]])
    decreases |s.peers[id].mail.queue|
  {
    var p := s.peers[id];
    var n := |p.mail.queue|;
    if n == 0 {
      assert Reads(id, 0) == [];
      assert s.peers[id := p] == s.peers;
    } else {
      hide ReceivedAll, Received;
      var t := Next(s, Read(id));
      ReadingHead(p.view, p.mail.queue);
      Drained(t, id);
      assert Reads(id, n)[1..] == Reads(id, n - 1);
    }
  }

  // ----- the ring against the table -----

  /** The two queries against the block table: everything from the ring's tip on, or the newest for an empty ring; and the
      newest 1500. */
  ghost predicate Queried(table: seq<Entry>, ring: seq<Entry>, rows: seq<Entry>, recent: seq<Entry>) {
    && Ascending(Points(table))
    && recent == Newest(table, RING_SIZE)
    && (ring == [] ==> rows == Newest(table, HELLO_BLOCKS))
    && (ring != [] ==> exists k: nat :: From(table, rows, k, Top(Points(ring))))
  }

  ghost predicate From(table: seq<Entry>, rows: seq<Entry>, k: nat, n: u64) {
    && k <= |table| && rows == table[k..]
    && (forall i :: 0 <= i < k ==> table[i].point.number < n)
    && (forall i :: k <= i < |table| ==> table[i].point.number >= n)
  }

  lemma TailAscends(table: seq<Entry>, k: nat)
    requires Ascending(Points(table)) && k <= |table|
    ensures Ascending(Points(table[k..])) && Points(table[k..]) == Points(table)[k..]
  {
  }

  lemma QueriedReadable(table: seq<Entry>, ring: seq<Entry>, rows: seq<Entry>, recent: seq<Entry>)
    requires Queried(table, ring, rows, recent)
    ensures Readable(ring, rows, recent)
  {
    hide Ascending, Points;
    TailAscends(table, |table| - |recent|);
    if ring == [] {
      TailAscends(table, |table| - |rows|);
    } else {
      var k: nat :| From(table, rows, k, Top(Points(ring)));
      TailAscends(table, k);
    }
  }

  ghost predicate SameTip(a: seq<Entry>, b: seq<Entry>) {
    && (a == [] <==> b == [])
    && (a != [] ==> a[|a| - 1].point.number == b[|b| - 1].point.number && a[|a| - 1].hash == b[|b| - 1].hash)
  }

  /** On an intact tip the ring gains the table's rows above it; otherwise it keeps its entries up to the highest one the
      table still holds and takes the table's rows above that. Both ways it ends at the table's tip. */
  lemma RefreshReachesTip(table: seq<Entry>, ring: seq<Entry>, rows: seq<Entry>, recent: seq<Entry>, next: seq<Entry>, d: Delta)
    requires Ascending(Points(ring)) && Queried(table, ring, rows, recent)
    requires Refreshed(ring, rows, recent, next, d)
    ensures SameTip(next, table)
    ensures ring != [] && OnTip(ring, rows) ==> next == Newest(ring + rows[1..], RING_SIZE) && d == Append(Points(rows[1..]))
    ensures ring == [] ==> next == rows && d == Append(Points(rows))
    ensures !OnTip(ring, rows) ==> exists keep: nat, k: nat :: Rejoined(ring, recent, keep, k, next, d)
  {
    QueriedReadable(table, ring, rows, recent);
    if ring == [] {
      FromNothing(table, rows, next, d);
    } else if OnTip(ring, rows) {
      FromTip(table, ring, rows, next, d);
    } else {
      var keep: nat :| Keeps(ring, recent, keep) && Reorganised(ring[..keep], recent, next, d);
      Rejoins(table, ring, recent, keep, next, d);
    }
  }

  /** The kept entries end at the highest one the table still holds; the table's rows from k on are those above it. */
  ghost predicate Rejoined(ring: seq<Entry>, recent: seq<Entry>, keep: nat, k: nat, next: seq<Entry>, d: Delta) {
    && Keeps(ring, recent, keep) && k <= |recent|
    && (keep > 0 ==> k > 0 && recent[k - 1].point.number == ring[keep - 1].point.number && recent[k - 1].hash == ring[keep - 1].hash)
    && (keep == 0 ==> k == 0)
    && next == Newest(ring[..keep] + recent[k..], RING_SIZE)
    && d == Reorg(if keep > 0 then ring[keep - 1].point.number else 0, Points(recent[k..]))
  }

  lemma FromNothing(table: seq<Entry>, rows: seq<Entry>, next: seq<Entry>, d: Delta)
    requires Ascending(Points(table)) && rows == Newest(table, HELLO_BLOCKS)
    requires next == Newest([] + Above(rows, Top(Points([]))), RING_SIZE) && d == Append(Points(Above(rows, Top(Points([])))))
    ensures SameTip(next, table) && next == rows && d == Append(Points(rows))
  {
    hide Above, Ascending, Points;
    TailAscends(table, |table| - |rows|);
    forall i | 0 <= i < |rows| ensures rows[i].point.number > 0 { Positive(Points(rows), i); }
    assert Points([]) == [];
    AboveAll(rows, 0);
    assert [] + rows == rows;
  }

  lemma FromTip(table: seq<Entry>, ring: seq<Entry>, rows: seq<Entry>, next: seq<Entry>, d: Delta)
    requires Ascending(Points(table)) && ring != [] && OnTip(ring, rows) && exists k: nat :: From(table, rows, k, Top(Points(ring)))
    requires next == Newest(ring + Above(rows, Top(Points(ring))), RING_SIZE) && d == Append(Points(Above(rows, Top(Points(ring)))))
    ensures SameTip(next, table) && next == Newest(ring + rows[1..], RING_SIZE) && d == Append(Points(rows[1..]))
  {
    var n := Top(Points(ring));
    assert n == ring[|ring| - 1].point.number;
    hide Above, Ascending, Points, Newest;
    var k: nat :| From(table, rows, k, n);
    BeyondTip(table, rows, k, n);
    NewestEnds(ring + rows[1..]);
    assert (ring + rows[1..])[|ring + rows[1..]| - 1] == if |rows| > 1 then rows[|rows| - 1] else ring[|ring| - 1];
  }

  lemma BeyondTip(table: seq<Entry>, rows: seq<Entry>, k: nat, n: u64)
    requires Ascending(Points(table)) && From(table, rows, k, n) && rows != [] && rows[0].point.number == n
    ensures Above(rows, n) == rows[1..] && table != [] && rows[|rows| - 1] == table[|table| - 1]
  {
    hide Above, Ascending, Points;
    TailAscends(table, k);
    if |rows| > 1 { InOrder(Points(rows), 0, 1); }
    TailIsAbove(rows, n, 1);
  }

  lemma NewestEnds(s: seq<Entry>)
    requires s != []
    ensures Newest(s, RING_SIZE) != [] && Newest(s, RING_SIZE)[|Newest(s, RING_SIZE)| - 1] == s[|s| - 1]
  {
  }

  /** Where the kept entries meet the table. */
  lemma Meets(ring: seq<Entry>, recent: seq<Entry>, keep: nat) returns (k: nat)
    requires Ascending(Points(recent)) && Keeps(ring, recent, keep)
    ensures k <= |recent| && Above(recent, Top(Points(ring[..keep]))) == recent[k..]
    ensures keep == 0 ==> k == 0 && Top(Points(ring[..keep])) == 0
    ensures keep > 0 ==> Top(Points(ring[..keep])) == ring[keep - 1].point.number
    ensures keep > 0 ==> k > 0 && recent[k - 1].point.number == ring[keep - 1].point.number && recent[k - 1].hash == ring[keep - 1].hash
  {
    hide Above, Ascending, Points;
    k := 0;
    if keep > 0 {
      var j :| 0 <= j < |recent| && recent[j].point.number == ring[keep - 1].point.number && recent[j].hash == ring[keep - 1].hash;
      k := j + 1;
      forall i | 0 <= i < j ensures recent[i].point.number <= recent[j].point.number { InOrder(Points(recent), i, j); }
      if k < |recent| { InOrder(Points(recent), j, k); }
    } else {
      if |recent| > 0 { Positive(Points(recent), 0); }
    }
    TailIsAbove(recent, Top(Points(ring[..keep])), k);
  }

  lemma Rejoins(table: seq<Entry>, ring: seq<Entry>, recent: seq<Entry>, keep: nat, next: seq<Entry>, d: Delta)
    requires Ascending(Points(table)) && recent == Newest(table, RING_SIZE)
    requires Keeps(ring, recent, keep) && Reorganised(ring[..keep], recent, next, d)
    ensures SameTip(next, table)
    ensures exists k: nat :: Rejoined(ring, recent, keep, k, next, d)
  {
    TailAscends(table, |table| - |recent|);
    hide Ascending, Keeps, Reorganised, Rejoined, SameTip;
    var k := Meets(ring, recent, keep);
    KeepsWithin(ring, recent, keep);
    RejoinedBy(ring, recent, keep, k, next, d);
    TipOfJoin(ring, recent, keep, k);
    NewestTail(table);
    SameTipTrans(next, recent, table);
  }

  lemma RejoinedBy(ring: seq<Entry>, recent: seq<Entry>, keep: nat, k: nat, next: seq<Entry>, d: Delta)
    requires keep <= |ring| && k <= |recent|
    requires Keeps(ring, recent, keep) && Reorganised(ring[..keep], recent, next, d)
    requires Above(recent, Top(Points(ring[..keep]))) == recent[k..]
    requires keep == 0 ==> k == 0 && Top(Points(ring[..keep])) == 0
    requires keep > 0 ==> Top(Points(ring[..keep])) == ring[keep - 1].point.number
    requires keep > 0 ==> k > 0 && recent[k - 1].point.number == ring[keep - 1].point.number && recent[k - 1].hash == ring[keep - 1].hash
    ensures Rejoined(ring, recent, keep, k, next, d) && next == Newest(ring[..keep] + recent[k..], RING_SIZE)
  {
    hide Above, Points, Keeps, Newest, Top;
  }

  lemma KeepsWithin(ring: seq<Entry>, recent: seq<Entry>, keep: nat)
    requires Keeps(ring, recent, keep)
    ensures keep <= |ring|
  {
  }

  lemma TipOfJoin(ring: seq<Entry>, recent: seq<Entry>, keep: nat, k: nat)
    requires keep <= |ring| && k <= |recent| && (keep == 0 ==> k == 0)
    requires keep > 0 ==> k > 0 && recent[k - 1].point.number == ring[keep - 1].point.number && recent[k - 1].hash == ring[keep - 1].hash
    ensures SameTip(Newest(ring[..keep] + recent[k..], RING_SIZE), recent)
  {
    hide Newest;
    var whole := ring[..keep] + recent[k..];
    if whole == [] {
      NewestNone();
    } else {
      NewestEnds(whole);
      assert whole[|whole| - 1] == if k < |recent| then recent[|recent| - 1] else ring[keep - 1];
    }
  }

  lemma SameTipTrans(a: seq<Entry>, b: seq<Entry>, c: seq<Entry>)
    requires SameTip(a, b) && SameTip(b, c)
    ensures SameTip(a, c)
  {
  }

  lemma NewestTail(s: seq<Entry>)
    ensures SameTip(Newest(s, RING_SIZE), s)
  {
  }

  lemma NewestNone()
    ensures Newest<Entry>([], RING_SIZE) == []
  {
  }

  /** After a refresh and its fan-out at any point of any run, each open client is heading for a view that ends at the table's
      tip, or for nothing. */
  lemma ClientsReachTip(steps: seq<Step>, table: seq<Entry>, refresh: Step, tick: bool, id: nat)
    requires Possible(EMPTY, steps) && refresh.Refresh? && Enabled(After(EMPTY, steps), refresh)
    requires Queried(table, After(EMPTY, steps).ring, refresh.rows, refresh.recent)
    requires id in After(EMPTY, steps).peers
    ensures var t := Next(Next(After(EMPTY, steps), refresh), Fan(tick));
            var h := Heading(t.peers[id].view, t.peers[id].mail);
            && SameTip(t.ring, table)
            && (!t.peers[id].mail.closed && h != [] ==> table != [] && Top(h) == table[|table| - 1].point.number)
  {
    RunKeeps(EMPTY, steps);
    var s := After(EMPTY, steps);
    hide After, Possible, Queried, Readable, Refreshed, Ascending, Heading, SameTip, LeadsTo, Follows, HasHello, Fanned;
    RefreshReachesTip(table, s.ring, refresh.rows, refresh.recent, refresh.next, refresh.d);
    StepKeeps(s, refresh);
    StepKeeps(Next(s, refresh), Fan(tick));
    var t := Next(Next(s, refresh), Fan(tick));
    assert PeerOk(t, t.peers[id]);
    if !t.peers[id].mail.closed {
      EndsTogether(Heading(t.peers[id].view, t.peers[id].mail), t.peers[id].mail.watermark, t.ring, table);
    }
  }

  lemma EndsTogether(h: seq<Point>, watermark: u64, ring: seq<Entry>, table: seq<Entry>)
    requires Follows(h, watermark, Points(ring)) && SameTip(ring, table)
    ensures h != [] ==> table != [] && Top(h) == table[|table| - 1].point.number
  {
    hide Ascending;
    var p := Points(ring);
    if h != [] {
      assert p != [] && h[|h| - 1] == p[|p| - 1];
    }
  }
}
