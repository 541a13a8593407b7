/** How long a caller sleeps (internal/nitro/pacer.go): the closed form is exactly the first instant at
    which a bucket nobody else touches holds what is wanted, so each sleep yields a whole token. */
module PacerWait {
  import opened Words
  import opened Pacer
  import opened PacerMeaning

  const MAX_PACER_WAIT: real := 60.0
  const NANOS: real := 1000000000.0

  /** The bucket after `tau` seconds with nobody spending. */
  function At(p: Params, b: Bucket, tau: real): Bucket { Refilled(p, b, b.last + tau) }

  function ClassCap(p: Params, lane: Class): real {
    if lane == Bulk && p.TimeShared() then p.burst else p.SharedCap()
  }

  function Need(p: Params, lane: Class, want: nat): real { RMin(want as real, ClassCap(p, lane)) }

  function Growth(p: Params): real { p.rate - p.reserveRate }

  /** Seconds until the reserve is full. */
  function Fill(p: Params, b: Bucket): real
    requires p.reserveRate > 0.0
  {
    (p.reserve - b.fast) / p.reserveRate
  }

  /** openWaitLocked before it is rounded. */
  function OpenWait(p: Params, b: Bucket, lane: Class, want: nat): real
    requires p.reserveRate > 0.0 && p.rate > 0.0
  {
    var need := Need(p, lane, want);
    var shared := Open(p, b, lane);
    if shared >= need then 0.0
    else if lane == Bulk && p.TimeShared() then (need - shared) / p.rate
    else if b.fast < p.reserve then
      var fill := Fill(p, b);
      var filled := shared + Credit(fill, Growth(p));
      if Growth(p) > 0.0 && filled >= need then (need - shared) / Growth(p)
      else fill + (need - filled) / p.rate
    else (need - shared) / p.rate
  }

  function ReserveWait(p: Params, b: Bucket): real
    requires p.reserveRate > 0.0
  {
    (1.0 - b.fast) / p.reserveRate
  }

  function Ceil(x: real): int { -((-x).Floor) }

  /** Whole nanoseconds, rounded up and capped. */
  function Nanos(s: real): nat {
    if !(s > 0.0) then 0
    else if s >= MAX_PACER_WAIT then 60_000_000_000
    else
      assert s * NANOS > 0.0;
      Ceil(s * NANOS)
  }

  function Sleep(s: real): real { Nanos(s) as real / NANOS }

  // ----- products and quotients -----

  lemma ProductSign(a: real, g: real)
    requires g > 0.0
    ensures a * g >= 0.0 <==> a >= 0.0
  {
    if a < 0.0 { assert (-a) * g > 0.0; }
  }

  lemma Cross(x: real, g: real, tau: real)
    requires g > 0.0
    ensures tau >= x / g <==> Credit(tau, g) >= x
  {
    var q := x / g;
    assert q * g == x;
    assert (tau - q) * g == Credit(tau, g) - x;
    ProductSign(tau - q, g);
  }

  lemma CreditOfQuotient(x: real, g: real)
    requires g > 0.0
    ensures Credit(x / g, g) == x
  {
  }

  lemma CreditSplit(tau: real, a: real, b: real)
    ensures Credit(tau, a) - Credit(tau, b) == Credit(tau, a - b)
  {
  }

  lemma CreditSince(tau: real, fill: real, a: real)
    ensures Credit(tau, a) == Credit(fill, a) + Credit(tau - fill, a)
  {
  }

  lemma NotEarlier(d: real, e: real, a: real)
    requires d <= e && 0.0 <= a
    ensures Credit(d, a) <= Credit(e, a)
  {
    NonNegative(e - d, a);
    assert e * a == d * a + (e - d) * a;
  }

  // ----- the undisturbed bucket -----

  lemma Levels(p: Params, b: Bucket, tau: real)
    requires Sound(p) && Level(p, b) && tau >= 0.0
    ensures At(p, b, tau).tokens == RMin(b.tokens + Credit(tau, p.rate), p.burst)
    ensures At(p, b, tau).fast == RMin(b.fast + Credit(tau, p.reserveRate), p.reserve)
    ensures Level(p, At(p, b, tau))
    ensures At(p, b, tau).bulkPending == b.bulkPending && At(p, b, tau).fastPending == b.fastPending
    ensures At(p, b, tau).lastFast == b.lastFast && At(p, b, tau).last == b.last + tau
  {
    hide Credit;
    assert b.last + tau - b.last == tau;
    RefillKeeps(p, b, b.last + tau);
    NoTime(p.rate);
    NoTime(p.reserveRate);
  }

  ghost predicate Callable(p: Params, b: Bucket, lane: Class) {
    if p.TimeShared() then lane == Bulk && b.BulkTurn() else true
  }

  /** While the reserve fills, the shared part meets a need it can hold exactly when its growth does. */
  lemma WhileFilling(p: Params, b: Bucket, need: real, tau: real)
    requires Sound(p) && Level(p, b) && tau >= 0.0 && need <= p.SharedCap()
    requires b.fast + Credit(tau, p.reserveRate) <= p.reserve
    ensures At(p, b, tau).Shared() >= need <==> b.tokens - b.fast + Credit(tau, Growth(p)) >= need
  {
    hide Credit, Refilled;
    Levels(p, b, tau);
    CreditSplit(tau, p.rate, p.reserveRate);
  }

  /** Once it is full, everything the rate brings is shared. */
  lemma OnceFull(p: Params, b: Bucket, need: real, tau: real)
    requires Sound(p) && Level(p, b) && tau >= 0.0 && need <= p.SharedCap()
    requires b.fast + Credit(tau, p.reserveRate) >= p.reserve
    ensures At(p, b, tau).Shared() >= need <==> b.tokens - p.reserve + Credit(tau, p.rate) >= need
  {
    hide Credit, Refilled;
    Levels(p, b, tau);
  }

  /** The need is met before the reserve is full. */
  lemma MetWhileFilling(p: Params, b: Bucket, need: real, tau: real)
    requires Sound(p) && Level(p, b) && tau >= 0.0 && b.Shared() < need <= p.SharedCap() && b.fast < p.reserve
    requires Growth(p) > 0.0 && b.Shared() + Credit(Fill(p, b), Growth(p)) >= need
    ensures At(p, b, tau).Shared() >= need <==> tau >= (need - b.Shared()) / Growth(p)
  {
    hide Credit, Refilled, At;
    var fill, g := Fill(p, b), Growth(p);
    Cross(need - b.Shared(), g, tau);
    Cross(p.reserve - b.fast, p.reserveRate, tau);
    if tau >= fill {
      OnceFull(p, b, need, tau);
      FullFrom(p, b, tau);
      NotEarlier(fill, tau, g);
      NotEarlier(fill, tau, p.rate);
    } else {
      WhileFilling(p, b, need, tau);
    }
  }

  /** What the rate brings by then, split at the moment the reserve is full. */
  lemma FullFrom(p: Params, b: Bucket, tau: real)
    requires Sound(p)
    ensures b.tokens - p.reserve + Credit(tau, p.rate)
            == b.tokens - b.fast + Credit(Fill(p, b), Growth(p)) + Credit(tau - Fill(p, b), p.rate)
    ensures tau >= Fill(p, b) ==> Credit(tau - Fill(p, b), p.rate) >= 0.0
  {
    hide Credit;
    var fill := Fill(p, b);
    CreditSince(tau, fill, p.rate);
    CreditSplit(fill, p.rate, p.reserveRate);
    CreditOfQuotient(p.reserve - b.fast, p.reserveRate);
    NoTime(p.rate);
    if tau >= fill { NotEarlier(0.0, tau - fill, p.rate); }
  }

  /** The need is met only after the reserve is full. */
  lemma MetOnceFull(p: Params, b: Bucket, need: real, tau: real)
    requires Sound(p) && Level(p, b) && tau >= 0.0 && b.Shared() < need <= p.SharedCap()
    requires b.Shared() + Credit(Fill(p, b), Growth(p)) < need
    ensures At(p, b, tau).Shared() >= need <==>
            tau >= Fill(p, b) + (need - (b.Shared() + Credit(Fill(p, b), Growth(p)))) / p.rate
  {
    hide Credit, Refilled, At;
    var fill, g := Fill(p, b), Growth(p);
    var short := need - (b.Shared() + Credit(fill, g));
    Cross(p.reserve - b.fast, p.reserveRate, tau);
    Cross(short, p.rate, tau - fill);
    Cross(short, p.rate, 0.0);
    NoTime(p.rate);
    if tau >= fill {
      OnceFull(p, b, need, tau);
      FullFrom(p, b, tau);
    } else {
      WhileFilling(p, b, need, tau);
      NotEarlier(tau, fill, g);
    }
  }

  lemma FullAlready(p: Params, b: Bucket, need: real, tau: real)
    requires Sound(p) && Level(p, b) && tau >= 0.0 && b.Shared() < need <= p.SharedCap() && b.fast >= p.reserve
    ensures At(p, b, tau).Shared() >= need <==> tau >= (need - b.Shared()) / p.rate
  {
    hide Credit, Refilled, At;
    NoTime(p.reserveRate);
    NotEarlier(0.0, tau, p.reserveRate);
    OnceFull(p, b, need, tau);
    Cross(need - b.Shared(), p.rate, tau);
  }

  lemma MetAlready(p: Params, b: Bucket, need: real, tau: real)
    requires Sound(p) && Level(p, b) && tau >= 0.0 && need <= p.SharedCap() && b.Shared() >= need
    ensures At(p, b, tau).Shared() >= need
  {
    hide Credit, Refilled;
    Levels(p, b, tau);
    CreditSplit(tau, p.rate, p.reserveRate);
    NoTime(Growth(p));
    NoTime(p.rate);
    NotEarlier(0.0, tau, Growth(p));
    NotEarlier(0.0, tau, p.rate);
  }

  lemma WholeBucketMet(p: Params, b: Bucket, need: real, tau: real)
    requires Sound(p) && Level(p, b) && tau >= 0.0 && need <= p.burst
    ensures At(p, b, tau).tokens >= need <==> b.tokens >= need || tau >= (need - b.tokens) / p.rate
  {
    hide Credit, Refilled;
    Levels(p, b, tau);
    Cross(need - b.tokens, p.rate, tau);
    NoTime(p.rate);
    NotEarlier(0.0, tau, p.rate);
  }

  /** The wait for open tokens is exactly the first instant at which the class holds what it can of what it
      wants, the reserve refilling alongside. */
  lemma OpenWaitExact(p: Params, b: Bucket, lane: Class, want: nat, tau: real)
    requires Sound(p) && Level(p, b) && Callable(p, b, lane) && tau >= 0.0
    ensures Open(p, At(p, b, tau), lane) >= Need(p, lane, want) <==> tau >= OpenWait(p, b, lane, want)
  {
    hide Credit, Refilled, At, Sound, Level;
    SoundFacts(p);
    var need := Need(p, lane, want);
    Levels(p, b, tau);
    LevelShared(p, b);
    if p.TimeShared() {
      WholeBucketMet(p, b, need, tau);
    } else if b.Shared() >= need {
      MetAlready(p, b, need, tau);
    } else if b.fast >= p.reserve {
      FullAlready(p, b, need, tau);
    } else if Growth(p) > 0.0 && b.Shared() + Credit(Fill(p, b), Growth(p)) >= need {
      MetWhileFilling(p, b, need, tau);
    } else {
      if Growth(p) == 0.0 { NoRate(Fill(p, b)); }
      MetOnceFull(p, b, need, tau);
    }
  }

  lemma NoRate(e: real)
    ensures Credit(e, 0.0) == 0.0
  {
  }

  lemma SoundFacts(p: Params)
    requires Sound(p)
    ensures p.rate > 0.0 && p.reserveRate > 0.0 && Growth(p) >= 0.0 && p.SharedCap() < p.burst
  {
  }

  lemma LevelShared(p: Params, b: Bucket)
    requires Level(p, b)
    ensures b.Shared() == b.tokens - b.fast
  {
  }

  /** The wait for the reserve is exactly the first instant at which it holds a whole token. */
  lemma ReserveWaitExact(p: Params, b: Bucket, tau: real)
    requires Sound(p) && Level(p, b) && tau >= 0.0
    ensures At(p, b, tau).fast >= 1.0 <==> tau >= ReserveWait(p, b)
  {
    hide Credit, Refilled;
    Levels(p, b, tau);
    Cross(1.0 - b.fast, p.reserveRate, tau);
  }

  // ----- the cap and the rounding -----

  /** No wait is longer than ten seconds, so the one-minute cap never bites. */
  lemma WaitsAreShort(p: Params, b: Bucket, lane: Class, want: nat)
    requires Sound(p) && Level(p, b)
    ensures Callable(p, b, lane) ==> OpenWait(p, b, lane, want) <= 10.0
    ensures ReserveWait(p, b) <= 10.0
  {
    hide Refilled, Credit;
    Levels(p, b, 10.0);
    TenSeconds(p);
    ReserveWaitExact(p, b, 10.0);
    if Callable(p, b, lane) {
      OpenWaitExact(p, b, lane, want, 10.0);
    }
  }

  lemma TenSeconds(p: Params)
    requires Sound(p)
    ensures Credit(10.0, p.rate) >= p.burst && Credit(10.0, p.reserveRate) >= 1.0
  {
  }

  lemma RoundedUp(s: real)
    requires s <= 10.0
    ensures Sleep(s) >= 0.0 && Sleep(s) >= s && Sleep(s) <= 11.0
    ensures s >= 0.0 ==> Sleep(s) < s + 1.0 / NANOS
  {
    if s > 0.0 {
      var x := s * NANOS;
      var n := Nanos(s);
      assert n == Ceil(x);
      assert x <= n as real < x + 1.0;
      QuotientOrder(n as real, x);
    }
  }

  lemma QuotientOrder(n: real, x: real)
    requires x <= n < x + 1.0
    ensures x / NANOS <= n / NANOS < x / NANOS + 1.0 / NANOS
  {
  }

  // ----- progress -----

  function WaitFor(p: Params, b: Bucket, lane: Class, want: nat): real
    requires p.reserveRate > 0.0 && p.rate > 0.0
  {
    var d := Sleep(OpenWait(p, b, lane, want));
    if lane == Fast then RMin(d, Sleep(ReserveWait(p, b))) else d
  }

  lemma WholeAtLeastOne(x: real)
    requires x >= 1.0
    ensures Whole(x) >= 1
  {
  }

  lemma CapHoldsOne(p: Params, b: Bucket, lane: Class, want: nat)
    requires Sound(p) && Callable(p, b, lane) && want > 0
    ensures Need(p, lane, want) >= 1.0
  {
  }

  /** After a sleep with nobody spending, the next section hands out at least one whole token. */
  lemma SleepYields(p: Params, b: Bucket, lane: Class, want: nat)
    requires Sound(p) && Level(p, b) && Callable(p, b, lane) && want > 0
    ensures var c := At(p, b, WaitFor(p, b, lane, want));
            TakeCount(p, c, lane, want) >= 1 || (lane == Fast && DrawCount(p, c, want) >= 1)
  {
    hide Refilled, Sleep, OpenWait, ReserveWait, Need, At, Credit, Level;
    WaitsAreShort(p, b, lane, want);
    RoundedUp(OpenWait(p, b, lane, want));
    RoundedUp(ReserveWait(p, b));
    var d := WaitFor(p, b, lane, want);
    var c := At(p, b, d);
    if d == Sleep(OpenWait(p, b, lane, want)) {
      OpenWaitExact(p, b, lane, want, d);
      CapHoldsOne(p, b, lane, want);
      WholeAtLeastOne(Open(p, c, lane));
    } else {
      ReserveWaitExact(p, b, d);
      WholeAtLeastOne(c.fast);
    }
  }

  lemma WaitIsShort(p: Params, b: Bucket, lane: Class, want: nat)
    requires Sound(p) && Level(p, b) && Callable(p, b, lane)
    ensures 0.0 <= WaitFor(p, b, lane, want) <= 11.0
  {
    hide Sleep, OpenWait, ReserveWait, Sound, Level;
    SoundFacts(p);
    WaitsAreShort(p, b, lane, want);
    RoundedUp(OpenWait(p, b, lane, want));
    RoundedUp(ReserveWait(p, b));
  }

  lemma Elevens(k: nat)
    ensures Credit(k as real, 11.0) >= 0.0
  {
  }

  lemma MoreElevens(a: nat, b: nat)
    requires a < b
    ensures Credit(a as real, 11.0) + 11.0 <= Credit(b as real, 11.0)
  {
  }

  /** One critical section of `spend`: refill, draw for a Fast caller, take. */
  method Section(bucket: TokenBucket, lane: Class, want: nat, t: real) returns (left: nat, ghost run: seq<Action>)
    requires bucket.Valid() && t >= bucket.last
    requires Callable(bucket.p, bucket.Value(), lane)
    modifies bucket
    ensures bucket.Valid() && bucket.last == t && left <= want
    ensures bucket.tokens + (want - left) as real <= old(bucket.tokens) + Credit(t - old(bucket.last), bucket.p.rate)
    ensures bucket.bulkPending == old(bucket.bulkPending) && bucket.fastPending == old(bucket.fastPending)
    ensures var c := Refilled(bucket.p, old(bucket.Value()), t);
            (TakeCount(bucket.p, c, lane, want) >= 1 || (lane == Fast && DrawCount(bucket.p, c, want) >= 1)) && want > 0 ==>
              left < want
    ensures Spends(bucket.p, old(bucket.Value()), run, bucket.Value(), want - left)
  {
    hide Credit, Level, Sound, Spends;
    ghost var p, was := bucket.p, bucket.Value();
    RefillKeeps(p, was, t);
    RefillLast(p, was, t);
    bucket.Refill(t);
    run := [Refill(t)];
    SpendOne(p, was, Refill(t));
    left := want;
    if lane == Fast {
      ghost var c := bucket.Value();
      DrawKeeps(p, c, left);
      left := bucket.DrawReserve(left);
      SpendOne(p, c, Draw(want));
      SpendMore(p, was, run, c, 0, [Draw(want)], bucket.Value(), want - left);
      run := run + [Draw(want)];
    }
    ghost var e, before := bucket.Value(), left;
    TakeKeeps(p, e, lane, left);
    TakeOrNothing(p, e, lane, want);
    var k := bucket.Take(lane, left);
    left := left - k;
    SpendOne(p, e, Take(lane, before));
    SpendMore(p, was, run, e, want - before, [Take(lane, before)], bucket.Value(), k);
    run := run + [Take(lane, before)];
  }

  lemma TakeOrNothing(p: Params, b: Bucket, lane: Class, want: nat)
    ensures TakeCount(p, b, lane, want) >= 0
  {
  }

  /** `spend` for a caller nobody disturbs: every sleep brings it closer, so it ends, having taken exactly
      what it asked for within eleven seconds a token. */
  method Spend(bucket: TokenBucket, lane: Class, n: nat, now: real) returns (ghost run: seq<Action>)
    requires bucket.Valid() && now >= bucket.last && n > 0
    requires if bucket.p.TimeShared() then lane == Bulk && bucket.fastPending == 0 else true
    modifies bucket
    ensures bucket.Valid() && bucket.last <= now + Credit(n as real, 11.0)
    ensures bucket.tokens + n as real <= old(bucket.tokens) + Credit(bucket.last - old(bucket.last), bucket.p.rate)
    ensures Spends(bucket.p, old(bucket.Value()), run, bucket.Value(), n)
  {
    hide Credit, Level, Sound, Refilled, TakeCount, DrawCount, WaitFor, Spends;
    ghost var p, began, first := bucket.p, bucket.last, bucket.Value();
    SoundFacts(p);
    var left: nat;
    left, run := Section(bucket, lane, n, now);
    var t := now;
    Elevens(n - left);
    while left > 0
      invariant bucket.Valid() && bucket.last == t && left <= n && began <= t
      invariant bucket.fastPending == old(bucket.fastPending)
      invariant t <= now + Credit((n - left) as real, 11.0)
      invariant bucket.tokens + (n - left) as real <= old(bucket.tokens) + Credit(t - began, p.rate)
      invariant Spends(p, first, run, bucket.Value(), n - left)
      decreases left
    {
      ghost var was, had := bucket.Value(), left;
      ghost var more: seq<Action>;
      WaitIsShort(p, was, lane, left);
      SleepYields(p, was, lane, left);
      t := t + WaitFor(bucket.p, bucket.Value(), lane, left);
      SpanAdds(p.rate, began, was.last, t);
      left, more := Section(bucket, lane, left, t);
      SpendMore(p, first, run, was, n - had, more, bucket.Value(), had - left);
      run := run + more;
      MoreElevens(n - had, n - left);
    }
  }

  lemma ReserveSleepYields(p: Params, b: Bucket, want: nat)
    requires Sound(p) && Level(p, b) && want > 0 && (p.TimeShared() ==> b.FastTurn())
    ensures DrawCount(p, At(p, b, Sleep(ReserveWait(p, b))), want) >= 1
    ensures 0.0 <= Sleep(ReserveWait(p, b)) <= 11.0
  {
    hide Refilled, Sleep, OpenWait, ReserveWait, At, Credit, Level;
    WaitsAreShort(p, b, Bulk, want);
    var d := ReserveWait(p, b);
    RoundedUp(d);
    Levels(p, b, Sleep(d));
    ReserveWaitExact(p, b, Sleep(d));
    WholeAtLeastOne(At(p, b, Sleep(d)).fast);
  }

  method DrawSection(bucket: TokenBucket, want: nat, t: real) returns (left: nat, ghost run: seq<Action>)
    requires bucket.Valid() && t >= bucket.last
    modifies bucket
    ensures bucket.Valid() && bucket.last == t
    ensures left == want - DrawCount(bucket.p, Refilled(bucket.p, old(bucket.Value()), t), want) <= want
    ensures bucket.tokens + (want - left) as real <= old(bucket.tokens) + Credit(t - old(bucket.last), bucket.p.rate)
    ensures bucket.bulkPending == old(bucket.bulkPending)
    ensures Spends(bucket.p, old(bucket.Value()), run, bucket.Value(), want - left)
  {
    hide Credit, Level, Sound, Spends;
    ghost var p, was := bucket.p, bucket.Value();
    RefillKeeps(p, was, t);
    RefillLast(p, was, t);
    bucket.Refill(t);
    ghost var c := bucket.Value();
    DrawKeeps(p, c, want);
    left := bucket.DrawReserve(want);
    SpendOne(p, was, Refill(t));
    SpendOne(p, c, Draw(want));
    SpendMore(p, was, [Refill(t)], c, 0, [Draw(want)], bucket.Value(), want - left);
    run := [Refill(t)] + [Draw(want)];
  }

  /** `waitTurns` for a Fast caller with no Bulk caller to yield to. */
  method WaitTurns(bucket: TokenBucket, n: nat, now: real) returns (ghost run: seq<Action>)
    requires bucket.Valid() && now >= bucket.last && n > 0 && bucket.bulkPending == 0
    modifies bucket
    ensures bucket.Valid() && bucket.last <= now + Credit(n as real, 11.0)
    ensures bucket.tokens + n as real <= old(bucket.tokens) + Credit(bucket.last - old(bucket.last), bucket.p.rate)
    ensures Spends(bucket.p, old(bucket.Value()), run, bucket.Value(), n)
  {
    hide Credit, Level, Sound, Refilled, DrawCount, ReserveWait, Sleep, Spends;
    ghost var p, began, first := bucket.p, bucket.last, bucket.Value();
    SoundFacts(p);
    var left: nat;
    left, run := DrawSection(bucket, n, now);
    var t := now;
    Elevens(n - left);
    while left > 0
      invariant bucket.Valid() && bucket.last == t && left <= n && began <= t && bucket.bulkPending == 0
      invariant t <= now + Credit((n - left) as real, 11.0)
      invariant bucket.tokens + (n - left) as real <= old(bucket.tokens) + Credit(t - began, p.rate)
      invariant Spends(p, first, run, bucket.Value(), n - left)
      decreases left
    {
      ghost var was, had := bucket.Value(), left;
      ghost var more: seq<Action>;
      ReserveSleepYields(p, was, left);
      t := t + Sleep(ReserveWait(bucket.p, bucket.Value()));
      SpanAdds(p.rate, began, was.last, t);
      left, more := DrawSection(bucket, left, t);
      SpendMore(p, first, run, was, n - had, more, bucket.Value(), had - left);
      run := run + more;
      MoreElevens(n - had, n - left);
    }
  }
}
