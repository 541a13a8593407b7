/** What each bucket operation hands out and leaves, exactly, without its own arithmetic (internal/nitro/pacer.go). */
module PacerMeaning {
  import opened Words
  import opened Pacer

  /** The rate has a floor; the burst is two seconds of it, at least one call; the reserve is the least of at least one token
      and a quarter of the rate, and refills in a second, or as fast as the bucket itself. */
  lemma ParamsExactly(cps: real)
    requires cps > 0.0
    ensures var p := NewParams(cps);
            && (cps >= 0.1 ==> p.rate == cps) && (cps < 0.1 ==> p.rate == 0.1)
            && (p.rate >= 0.5 ==> p.burst == 2.0 * p.rate) && (p.rate < 0.5 ==> p.burst == 1.0)
            && (p.rate >= 4.0 ==> 4.0 * p.reserve == p.rate) && (p.rate < 4.0 ==> p.reserve == 1.0)
            && (p.rate >= 1.0 ==> p.reserveRate == p.reserve) && (p.rate < 1.0 ==> p.reserveRate == p.rate)
  {
  }

  /** k is the most whole tokens, up to what is wanted, that a level holds. */
  ghost predicate Most(k: nat, want: nat, level: real) {
    && k <= want && (k as real <= level || k == 0)
    && (k == want || level < k as real + 1.0)
  }

  lemma WholeIsMost(want: nat, level: real)
    ensures Most(Max(Min(want, Whole(level)), 0), want, level)
  {
  }

  /** A Fast caller's draw: all it wants or all the whole tokens the reserve holds, nothing when a Bulk caller is due. */
  lemma DrawExactly(p: Params, b: Bucket, want: nat)
    requires Sound(p) && Level(p, b)
    ensures var k, c := DrawCount(p, b, want), Drawn(p, b, want);
            && (if p.TimeShared() && b.bulkPending > 0 && b.lastFast then k == 0 else Most(k, want, b.fast))
            && c == Bucket(b.tokens - k as real, b.fast - k as real, b.last, b.bulkPending, b.fastPending, b.lastFast || k > 0)
  {
    DrawKeeps(p, b, want);
    WholeIsMost(want, b.fast);
  }

  /** A take: all it wants or all the whole tokens outside the reserve; for Bulk on a time-shared bucket the whole bucket, and
      nothing when a Fast caller is due. A bulk take passes the turn on. */
  lemma TakeExactly(p: Params, b: Bucket, lane: Class, want: nat)
    requires Sound(p) && Level(p, b)
    ensures var k, c := TakeCount(p, b, lane, want), Taken(p, b, lane, want);
            && (if lane == Fast || !p.TimeShared() then Most(k, want, b.tokens - b.fast)
                else if b.fastPending > 0 && !b.lastFast then k == 0
                else Most(k, want, b.tokens))
            && c.tokens == b.tokens - k as real
            && c.fast == (if b.fast <= b.tokens - k as real then b.fast else b.tokens - k as real)
            && c.last == b.last && c.bulkPending == b.bulkPending && c.fastPending == b.fastPending
            && c.lastFast == (b.lastFast && (lane == Fast || k == 0))
  {
    TakeKeeps(p, b, lane, want);
    WholeIsMost(want, Open(p, b, lane));
  }

  /** A refund raises the level by all of it, or to the burst. */
  lemma RefundExactly(p: Params, b: Bucket, n: nat)
    requires Level(p, b)
    ensures var c := Refunded(p, b, n);
            && c == b.(tokens := c.tokens)
            && (b.tokens + n as real <= p.burst ==> c.tokens == b.tokens + n as real)
            && (b.tokens + n as real > p.burst ==> c.tokens == p.burst)
  {
  }

  /** What was handed out and comes back leaves the level as it was. */
  lemma RefundUndoes(p: Params, b: Bucket, lane: Class, want: nat)
    requires Sound(p) && Level(p, b)
    ensures Refunded(p, Taken(p, b, lane, want), TakeCount(p, b, lane, want)).tokens == b.tokens
    ensures Refunded(p, Drawn(p, b, want), DrawCount(p, b, want)).tokens == b.tokens
  {
    TakeKeeps(p, b, lane, want);
    DrawKeeps(p, b, want);
    hide Taken, Drawn, TakeCount, DrawCount, Refunded;
    RefundExactly(p, Taken(p, b, lane, want), TakeCount(p, b, lane, want));
    RefundExactly(p, Drawn(p, b, want), DrawCount(p, b, want));
  }

  /** A caller that leaves undoes its entering; only its own lane's count moves. */
  lemma LeaveUndoes(b: Bucket, lane: Class)
    ensures Left(Entered(b, lane), lane) == b
    ensures lane == Fast ==> Entered(b, lane) == b.(fastPending := b.fastPending + 1)
    ensures lane == Bulk ==> Entered(b, lane) == b.(bulkPending := b.bulkPending + 1)
  {
  }

  // ----- runs joined -----

  lemma {:induction false} RunsJoin(p: Params, b: Bucket, r: seq<Action>, more: seq<Action>)
    requires Legal(p, b, r) && Legal(p, After(p, b, r), more)
    ensures Legal(p, b, r + more)
    ensures After(p, b, r + more) == After(p, After(p, b, r), more)
    ensures Net(p, b, r + more) == Net(p, b, r) + Net(p, After(p, b, r), more)
    decreases |r|
  {
    hide Step, Granted;
    if r == [] {
      assert r + more == more;
    } else {
      assert (r + more)[1..] == r[1..] + more;
      RunsJoin(p, Step(p, b, r[0]), r[1..], more);
    }
  }

  lemma NoRun(p: Params, b: Bucket)
    ensures Legal(p, b, []) && After(p, b, []) == b && Net(p, b, []) == 0
  {
  }

  lemma OneAction(p: Params, b: Bucket, a: Action)
    requires Allowed(b, a)
    ensures Legal(p, b, [a]) && After(p, b, [a]) == Step(p, b, a) && Net(p, b, [a]) == Granted(p, b, a)
  {
    hide Step, Granted;
    assert [a][1..] == [];
    NoRun(p, Step(p, b, a));
  }

  /** A run leads from one bucket to another and hands out n tokens in all. */
  ghost predicate Spends(p: Params, b: Bucket, run: seq<Action>, c: Bucket, n: int) {
    Legal(p, b, run) && After(p, b, run) == c && Net(p, b, run) == n
  }

  lemma SpendMore(p: Params, b: Bucket, run: seq<Action>, c: Bucket, n: int, more: seq<Action>, d: Bucket, k: int)
    requires Spends(p, b, run, c, n) && Spends(p, c, more, d, k)
    ensures Spends(p, b, run + more, d, n + k)
  {
    RunsJoin(p, b, run, more);
  }

  lemma SpendOne(p: Params, b: Bucket, a: Action)
    requires Allowed(b, a)
    ensures Spends(p, b, [a], Step(p, b, a), Granted(p, b, a))
  {
    hide Legal, After, Net, Step, Granted;
    OneAction(p, b, a);
  }
}
