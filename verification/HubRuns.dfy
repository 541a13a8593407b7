/** Every run of the hub with one refresh delta outstanding at a time: whoever subscribes, reads or leaves
    at whatever moment, each open client's view follows the ring. */
module HubRuns {
  import opened Words
  import opened Hub

  /** A client and what it has made of the messages it has read. `late` marks one that registered after
      the outstanding ring update. */
  datatype Peer = Peer(view: seq<Point>, mail: Mail, late: bool)

  /** `before` is the ring the outstanding delta started from. */
  datatype State = State(ring: seq<Entry>, pending: Option<Delta>, before: seq<Entry>, peers: map<nat, Peer>)

  datatype Step =
    | Refresh(rows: seq<Entry>, recent: seq<Entry>, next: seq<Entry>, d: Delta)
    | Fan(tick: bool)
    | Join(id: nat)
    | Leave(id: nat)
    | Read(id: nat)
    | Close(id: nat)

  ghost predicate Enabled(s: State, step: Step) {
    match step
    case Refresh(rows, recent, next, d) =>
      s.pending.None? && Readable(s.ring, rows, recent) && Refreshed(s.ring, rows, recent, next, d)
    case Fan(_) => s.pending.Some?
    case Join(_) => true
    case Leave(_) => true
    case Read(id) => id in s.peers && s.peers[id].mail.queue != []
    case Close(id) => id in s.peers
  }

  function FannedPeer(p: Peer, d: Delta, tick: bool): Peer { p.(mail := Fanned(p.mail, d, tick), late := false) }

  /** A first subscription of a fresh socket, or a switch of an existing one to this network. */
  function Joined(s: State, id: nat): Peer {
    var p := if id in s.peers then s.peers[id] else Peer([], Mail([], 0, false, false), false);
    p.(mail := Subscribed(p.mail, s.ring), late := s.pending.Some?)
  }

  function ReadOne(p: Peer): Peer
    requires p.mail.queue != []
  {
    p.(view := Received(p.view, p.mail.queue[0]), mail := p.mail.(queue := p.mail.queue[1..]))
  }

  function Next(s: State, step: Step): State
    requires step.Fan? ==> s.pending.Some?
    requires step.Read? ==> step.id in s.peers && s.peers[step.id].mail.queue != []
    requires step.Close? ==> step.id in s.peers
  {
    match step
    case Refresh(_, _, next, d) => State(next, Some(d), s.ring, s.peers)
    case Fan(tick) =>
      s.(pending := None, peers := map id | id in s.peers :: FannedPeer(s.peers[id], s.pending.value, tick))
    case Join(id) => s.(peers := s.peers[id := Joined(s, id)])
    case Leave(id) => s.(peers := s.peers - {id})
    case Read(id) => s.(peers := s.peers[id := ReadOne(s.peers[id])])
    case Close(id) => s.(peers := s.peers[id := s.peers[id].(mail := s.peers[id].mail.(closed := true))])
  }

  // ----- the invariant -----

  ghost predicate PeerOk(s: State, p: Peer) {
    && (s.pending.None? ==> !p.late)
    && (!p.mail.closed ==> (
            if p.late then HasHello(Heading(p.view, p.mail), p.mail.watermark, Points(s.ring))
            else Follows(Heading(p.view, p.mail), p.mail.watermark, Points(if s.pending.None? then s.ring else s.before))))
  }

  ghost predicate Inv(s: State) {
    && Ascending(Points(s.ring)) && |s.ring| <= RING_SIZE
    && (s.pending.Some? ==> Ascending(Points(s.before)) && LeadsTo(Points(s.before), s.pending.value, Points(s.ring)))
    && (forall id :: id in s.peers ==> PeerOk(s, s.peers[id]))
  }

  lemma HelloFollows(ring: seq<Point>)
    requires Ascending(ring)
    ensures Follows(Newest(ring, HELLO_BLOCKS), Top(ring), ring) && Suffix(Newest(ring, HELLO_BLOCKS), ring)
  {
  }

  lemma JoinOk(s: State, id: nat)
    requires Inv(s)
    ensures PeerOk(s.(peers := s.peers[id := Joined(s, id)]), Joined(s, id))
  {
    hide Follows, ReceivedAll, Ascending;
    var p := if id in s.peers then s.peers[id] else Peer([], Mail([], 0, false, false), false);
    var recent := Newest(Points(s.ring), HELLO_BLOCKS);
    EnqueuedHeading(p.view, p.mail.(watermark := Top(recent)), Hello(recent));
    HelloFollows(Points(s.ring));
  }

  /** An earlier client follows; its watermark stays at or below the new tip. */
  lemma EarlyFanOk(h: seq<Point>, w: u64, w2: u64, before: seq<Point>, d: Delta, next: seq<Point>)
    requires Ascending(before) && LeadsTo(before, d, next) && Follows(h, w, before)
    requires d.Append? ==> w2 == if Unsent(d.blocks, w) == [] then w else Top(d.blocks)
    requires d.Reorg? ==> w2 <= d.ancestor && w2 <= w
    ensures Follows(Moved(h, w, d), w2, next)
  {
    FanOutFollows(h, w, before, d, next);
    TopOfNext(before, d, next);
  }

  lemma TopOfNext(before: seq<Point>, d: Delta, next: seq<Point>)
    requires Ascending(before) && LeadsTo(before, d, next)
    ensures d.Append? ==> Top(next) >= Top(before) && (d.blocks != [] ==> Top(next) == Top(d.blocks))
    ensures d.Reorg? ==> Top(next) >= d.ancestor
  {
    var whole := Base(before, d) + d.blocks;
    assert whole != [] ==> next != [] && next[|next| - 1] == whole[|whole| - 1];
    if d.blocks != [] {
      assert whole[|whole| - 1] == d.blocks[|d.blocks| - 1];
    } else {
      assert whole == Base(before, d);
    }
  }

  /** A client whose hello already had the update: blocks are dropped by its watermark, a reorg is
      applied a second time to the same effect. */
  lemma LateFanOk(h: seq<Point>, w: u64, w2: u64, before: seq<Point>, d: Delta, next: seq<Point>)
    requires Ascending(before) && LeadsTo(before, d, next) && HasHello(h, w, next)
    requires d.Append? ==> w2 == if Unsent(d.blocks, w) == [] then w else Top(d.blocks)
    requires d.Reorg? ==> w2 <= d.ancestor && w2 <= w
    ensures Follows(Moved(h, w, d), w2, next)
  {
    hide UpTo, Unsent, Ascending, AllAbove, Suffix, Related;
    LeadsKeepsAscending(before, d, next);
    HelloFollows(next);
    TopOfNext(before, d, next);
    var whole := Base(before, d) + d.blocks;
    if d.Append? {
      LateAppend(w, before, d, next);
      assert h + [] == h;
    } else {
      AgainIsSuffix(h, before, d, next);
      NewestIsSuffix(whole, RING_SIZE);
      CommonSuffix(UpTo(h, d.ancestor) + d.blocks, next, whole);
      SuffixAscending(UpTo(h, d.ancestor) + d.blocks, whole);
      if next == [] { SuffixOfNone(UpTo(h, d.ancestor) + d.blocks, whole); }
    }
  }

  lemma NewestIsSuffix(s: seq<Point>, n: nat)
    ensures Suffix(Newest(s, n), s)
  {
  }

  lemma SuffixOfNone(a: seq<Point>, b: seq<Point>)
    requires Suffix(a, b) && b == []
    ensures a == []
  {
  }

  lemma LateAppend(w: u64, before: seq<Point>, d: Delta, next: seq<Point>)
    requires Ascending(before) && LeadsTo(before, d, next) && d.Append? && w == Top(next)
    ensures Unsent(d.blocks, w) == []
  {
    hide Unsent, Ascending;
    TopOfNext(before, d, next);
    TopBoundsAll(d.blocks);
    UnsentNone(d.blocks, w);
  }

  lemma AgainIsSuffix(h: seq<Point>, before: seq<Point>, d: Delta, next: seq<Point>)
    requires Ascending(before) && LeadsTo(before, d, next) && d.Reorg? && Suffix(h, next)
    ensures Suffix(UpTo(h, d.ancestor) + d.blocks, Base(before, d) + d.blocks)
  {
    hide UpTo, Ascending;
    var n := d.ancestor;
    var whole := Base(before, d) + d.blocks;
    SuffixTrans(h, next, whole);
    SuffixCut(h, whole, n);
    CutFacts(before, n);
    UpToConcat(UpTo(before, n), d.blocks, n);
    CutNothing(UpTo(before, n), n);
    CutAll(d.blocks, n);
    assert UpTo(before, n) + [] == UpTo(before, n);
    SuffixExtended(UpTo(h, n), UpTo(before, n), d.blocks);
  }

  lemma SuffixAscending(a: seq<Point>, b: seq<Point>)
    requires Suffix(a, b) && Ascending(b)
    ensures Ascending(a)
  {
  }

  lemma FanPeerOk(s: State, tick: bool, id: nat)
    requires Inv(s) && s.pending.Some? && id in s.peers
    ensures PeerOk(Next(s, Fan(tick)), FannedPeer(s.peers[id], s.pending.value, tick))
  {
    hide Follows, HasHello, LeadsTo, Ascending, Fanned, Moved, Unsent;
    var p, d := s.peers[id], s.pending.value;
    if !Fanned(p.mail, d, tick).closed {
      FannedHeading(p.view, p.mail, d, tick);
      var h, w, w2 := Heading(p.view, p.mail), p.mail.watermark, Fanned(p.mail, d, tick).watermark;
      if p.late {
        LateFanOk(h, w, w2, Points(s.before), d, Points(s.ring));
      } else {
        EarlyFanOk(h, w, w2, Points(s.before), d, Points(s.ring));
      }
    }
  }

  lemma ReadOk(s: State, p: Peer)
    requires PeerOk(s, p) && p.mail.queue != []
    ensures PeerOk(s, ReadOne(p))
  {
    ReadingHead(p.view, p.mail.queue);
  }

  lemma StepKeeps(s: State, step: Step)
    requires Inv(s) && Enabled(s, step)
    ensures Inv(Next(s, step))
  {
    hide Follows, HasHello, LeadsTo, Ascending, Heading, Fanned, Subscribed;
    match step
    case Refresh(rows, recent, next, d) =>
      RefreshLeads(s.ring, rows, recent, next, d);
      RefreshKeepsRing(s.ring, rows, recent, next, d);
    case Fan(tick) =>
      forall id | id in s.peers ensures PeerOk(Next(s, step), FannedPeer(s.peers[id], s.pending.value, tick)) {
        FanPeerOk(s, tick, id);
      }
    case Join(id) =>
      JoinOk(s, id);
    case Leave(id) =>
    case Read(id) =>
      ReadOk(s, s.peers[id]);
    case Close(id) =>
  }

  // ----- whole runs -----

  ghost predicate Possible(s: State, steps: seq<Step>)
    decreases |steps|
  {
    steps == [] || (Enabled(s, steps[0]) && Possible(Next(s, steps[0]), steps[1..]))
  }

  ghost function After(s: State, steps: seq<Step>): State
    requires Possible(s, steps)
    decreases |steps|
  {
    if steps == [] then s else After(Next(s, steps[0]), steps[1..])
  }

  lemma {:induction false} RunKeeps(s: State, steps: seq<Step>)
    requires Inv(s) && Possible(s, steps)
    ensures Inv(After(s, steps))
    decreases |steps|
  {
    hide Inv, Next;
    if steps != [] {
      StepKeeps(s, steps[0]);
      RunKeeps(Next(s, steps[0]), steps[1..]);
    }
  }

  const EMPTY := State([], None, [], map[])

  /** Same points wherever both reach back to. */
  ghost predicate Agree(a: seq<Point>, b: seq<Point>) {
    a != [] && b != [] ==> (
        && a[|a| - 1] == b[|b| - 1]
        && forall p: Point :: p.number >= a[0].number && p.number >= b[0].number ==> (p in a <==> p in b))
  }

  lemma SuffixAgrees(a: seq<Point>, b: seq<Point>)
    requires Ascending(a) && Ascending(b) && Suffix(a, b)
    ensures Agree(a, b) && Agree(b, a)
  {
    if a != [] {
      forall p: Point | p.number >= a[0].number && p in b ensures p in a {
        var i :| 0 <= i < |b| && b[i] == p;
        NotBefore(b, |b| - |a|, i);
        assert a[i - (|b| - |a|)] == b[i];
      }
      assert forall p: Point :: p in a ==> p in b;
    }
  }

  lemma NotBefore(b: seq<Point>, k: nat, i: nat)
    requires Ascending(b) && k < |b| && i < |b| && b[i].number >= b[k].number
    ensures i >= k
  {
  }

  /** Once no delta is outstanding, every open client is heading for a view that agrees with the ring on
      all blocks both reach back to, and that holds no number twice. */
  lemma ViewsFollowRing(steps: seq<Step>, id: nat)
    requires Possible(EMPTY, steps)
    requires var t := After(EMPTY, steps); t.pending.None? && id in t.peers && !t.peers[id].mail.closed
    ensures var t := After(EMPTY, steps);
            var h := ReceivedAll(t.peers[id].view, t.peers[id].mail.queue);
            Agree(h, Points(t.ring)) && Ascending(h) && (t.ring == [] ==> h == [])
  {
    RunKeeps(EMPTY, steps);
    var t := After(EMPTY, steps);
    hide Ascending, Agree, Suffix, ReceivedAll, Possible, After, Points;
    var p := t.peers[id];
    assert PeerOk(t, p);
    var h, ring := ReceivedAll(p.view, p.mail.queue), Points(t.ring);
    assert Follows(h, p.mail.watermark, ring);
    if Suffix(h, ring) { SuffixAgrees(h, ring); } else { SuffixAgrees(ring, h); }
  }

  lemma CutToNothing(s: seq<Point>, n: u64)
    requires Ascending(s)
    ensures UpTo(s, n) == [] <==> s == [] || s[0].number > n
  {
    hide UpTo;
    if s == [] || s[0].number > n {
      forall i | 0 < i < |s| ensures s[i].number > n { InOrder(s, 0, i); }
      CutAll(s, n);
    } else {
      FirstSurvives(s, n);
    }
  }

  lemma FirstSurvives(s: seq<Point>, n: u64)
    requires s != [] && s[0].number <= n
    ensures UpTo(s, n) != []
  {
    hide UpTo;
    UpToConcat([s[0]], s[1..], n);
    CutNothing([s[0]], n);
    assert [s[0]] + s[1..] == s;
  }

  /** When a fan-out leaves a client heading for nothing: it brings nothing, and the client had nothing or all it had is
      above the ancestor of a reorg, as when a reorg is deeper than the hello reached and the table holds no row above
      the ancestor. A view that holds anything ends at the ring's tip. */
  lemma EmptyViewExactlyWhen(heading: seq<Point>, watermark: u64, d: Delta)
    requires Ascending(heading)
    ensures d.Append? ==> (Moved(heading, watermark, d) == [] <==> heading == [] && Unsent(d.blocks, watermark) == [])
    ensures d.Reorg? ==> (Moved(heading, watermark, d) == [] <==>
                            d.blocks == [] && (heading == [] || heading[0].number > d.ancestor))
  {
    hide UpTo, Unsent, Ascending;
    if d.Reorg? { CutToNothing(heading, d.ancestor); }
  }

  /** A client that has read everything holds that view. */
  lemma CaughtUp(steps: seq<Step>, id: nat)
    requires Possible(EMPTY, steps)
    requires var t := After(EMPTY, steps);
             t.pending.None? && id in t.peers && !t.peers[id].mail.closed && t.peers[id].mail.queue == []
    ensures var t := After(EMPTY, steps); Agree(t.peers[id].view, Points(t.ring)) && Ascending(t.peers[id].view)
  {
    ViewsFollowRing(steps, id);
  }

  /** Between reorgs no block comes twice: what a fan-out puts in a blocks message is above every block
      the client holds or has queued, for a client that registered before the update, and is nothing at
      all for one that registered after it. */
  lemma NothingSentTwice(steps: seq<Step>, id: nat)
    requires Possible(EMPTY, steps)
    requires var t := After(EMPTY, steps);
             t.pending.Some? && t.pending.value.Append? && id in t.peers && !t.peers[id].mail.closed
    ensures var t := After(EMPTY, steps);
            var p := t.peers[id];
            var sent := Unsent(t.pending.value.blocks, p.mail.watermark);
            && Ascending(ReceivedAll(p.view, p.mail.queue) + sent)
            && sent == (if p.late then [] else t.pending.value.blocks)
  {
    RunKeeps(EMPTY, steps);
    var t := After(EMPTY, steps);
    hide ReceivedAll, Possible, After, Points;
    var p, d := t.peers[id], t.pending.value;
    assert PeerOk(t, p);
    var h, w := ReceivedAll(p.view, p.mail.queue), p.mail.watermark;
    if p.late {
      LateFanOk(h, w, if Unsent(d.blocks, w) == [] then w else Top(d.blocks), Points(t.before), d, Points(t.ring));
      LateAppend(w, Points(t.before), d, Points(t.ring));
    } else {
      FanOutFollows(h, w, Points(t.before), d, Points(t.ring));
    }
  }
}
