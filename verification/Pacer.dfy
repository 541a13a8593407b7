/** The token bucket of internal/nitro/pacer.go over exact reals and a clock that does not run back: two
    lanes, a reserve only Fast callers draw, and whole tokens taken in turn below one call per second. */
module Pacer {
  import opened Words

  datatype Class = Bulk | Fast

  datatype Params = Params(rate: real, burst: real, reserve: real, reserveRate: real) {
    function SharedCap(): real { burst - reserve }

    /** The reserve leaves the bulk lane no whole token of its own. */
    predicate TimeShared() { SharedCap() < 1.0 }
  }

  /** What changes: the levels, the instant they are for, and the time-sharing book-keeping. */
  datatype Bucket = Bucket(tokens: real, fast: real, last: real, bulkPending: nat, fastPending: nat, lastFast: bool) {
    function Shared(): real { RMax(tokens - fast, 0.0) }
    predicate BulkTurn() { fastPending == 0 || lastFast }
    predicate FastTurn() { bulkPending == 0 || !lastFast }
  }

  const MIN_CALLS_PER_SECOND: real := 0.1

  function RMin(a: real, b: real): real { if a < b then a else b }
  function RMax(a: real, b: real): real { if a < b then b else a }

  /** Tokens credited for elapsed seconds. */
  function Credit(elapsed: real, rate: real): real { elapsed * rate }

  function Whole(x: real): int { x.Floor }

  /** The parameters of a metered pacer; a rate of zero or less is unlimited and takes no part here. */
  function NewParams(callsPerSecond: real): (p: Params)
    requires callsPerSecond > 0.0
    ensures Sound(p)
    ensures p.TimeShared() <==> p.rate < 1.0
  {
    var rate := RMax(callsPerSecond, MIN_CALLS_PER_SECOND);
    var reserve := RMax(1.0, rate / 4.0);
    Params(rate, RMax(2.0 * rate, 1.0), reserve, RMin(reserve, rate))
  }

  /** What the parameters of any rate satisfy; time sharing has a reserve of one token, refilled at the rate. */
  ghost predicate Sound(p: Params) {
    && 0.1 <= p.rate
    && p.burst == RMax(2.0 * p.rate, 1.0)
    && 1.0 <= p.reserve <= p.burst
    && 0.1 <= p.reserveRate <= p.rate
    && (p.TimeShared() ==> p.reserve == 1.0 && p.reserveRate == p.rate && p.burst < 2.0)
  }

  function Full(p: Params, now: real): Bucket { Bucket(p.burst, p.reserve, now, 0, 0, false) }

  ghost predicate Level(p: Params, b: Bucket) { 0.0 <= b.fast <= b.tokens <= p.burst && b.fast <= p.reserve }

  // ----- the locked operations -----

  function Refilled(p: Params, b: Bucket, t: real): Bucket {
    var tokens := if t > b.last then RMin(b.tokens + Credit(t - b.last, p.rate), p.burst) else b.tokens;
    var fast := if t > b.last then RMin(b.fast + Credit(t - b.last, p.reserveRate), p.reserve) else b.fast;
    b.(tokens := tokens, fast := RMin(fast, tokens), last := t)
  }

  function Open(p: Params, b: Bucket, lane: Class): real {
    if lane == Bulk && p.TimeShared() then if b.BulkTurn() then b.tokens else 0.0
    else b.Shared()
  }

  /** Whole reserve tokens a Fast caller gets now. */
  function DrawCount(p: Params, b: Bucket, want: nat): nat {
    if p.TimeShared() && !b.FastTurn() then 0 else Max(Min(want, Whole(b.fast)), 0)
  }

  function Drawn(p: Params, b: Bucket, want: nat): Bucket {
    var k := DrawCount(p, b, want);
    if k == 0 then b
    else b.(tokens := b.tokens - k as real, fast := RMax(b.fast - k as real, 0.0), lastFast := true)
  }

  function TakeCount(p: Params, b: Bucket, lane: Class, want: nat): nat {
    Max(Min(want, Whole(Open(p, b, lane))), 0)
  }

  function Taken(p: Params, b: Bucket, lane: Class, want: nat): Bucket {
    var k := TakeCount(p, b, lane, want);
    if k == 0 then b
    else b.(tokens := b.tokens - k as real, fast := RMin(b.fast, b.tokens - k as real),
            lastFast := if lane == Bulk then false else b.lastFast)
  }

  /** Tokens of requests that never reached the wire come back, up to the burst. */
  function Refunded(p: Params, b: Bucket, n: nat): Bucket {
    if n == 0 then b
    else
      var tokens := RMin(b.tokens + n as real, p.burst);
      b.(tokens := tokens, fast := RMin(b.fast, tokens))
  }

  function Entered(b: Bucket, lane: Class): Bucket {
    if lane == Fast then b.(fastPending := b.fastPending + 1) else b.(bulkPending := b.bulkPending + 1)
  }

  function Left(b: Bucket, lane: Class): Bucket
    requires if lane == Fast then b.fastPending > 0 else b.bulkPending > 0
  {
    if lane == Fast then b.(fastPending := b.fastPending - 1) else b.(bulkPending := b.bulkPending - 1)
  }

  class TokenBucket {
    const p: Params
    var tokens: real
    var fastTokens: real
    var last: real
    var bulkPending: nat
    var fastPending: nat
    var lastFast: bool

    ghost predicate Valid() reads this { Sound(p) && Level(p, Value()) }

    function Value(): Bucket reads this { Bucket(tokens, fastTokens, last, bulkPending, fastPending, lastFast) }

    constructor (callsPerSecond: real, now: real)
      requires callsPerSecond > 0.0
      ensures p == NewParams(callsPerSecond) && Value() == Full(p, now) && Valid()
    {
      p := NewParams(callsPerSecond);
      new;
      tokens, fastTokens, last := p.burst, p.reserve, now;
      bulkPending, fastPending, lastFast := 0, 0, false;
    }

    method Refill(t: real)
      requires Valid() && t >= last
      modifies this
      ensures Value() == Refilled(p, old(Value()), t) && Valid()
    {
      hide Credit, Level, Sound;
      ghost var was := Value();
      RefillKeeps(p, was, t);
      if t - last > 0.0 {
        tokens := RMin(tokens + Credit(t - last, p.rate), p.burst);
        fastTokens := RMin(fastTokens + Credit(t - last, p.reserveRate), p.reserve);
      }
      fastTokens := RMin(fastTokens, tokens);
      last := t;
    }

    method DrawReserve(remaining: nat) returns (left: nat)
      requires Valid()
      modifies this
      ensures Value() == Drawn(p, old(Value()), remaining) && Valid()
      ensures left == remaining - DrawCount(p, old(Value()), remaining)
    {
      ghost var was := Value();
      DrawKeeps(p, was, remaining);
      if p.TimeShared() && !Value().FastTurn() { return remaining; }
      var k := Min(remaining, Whole(fastTokens));
      if k <= 0 { return remaining; }
      tokens := tokens - k as real;
      fastTokens := RMax(fastTokens - k as real, 0.0);
      lastFast := true;
      left := remaining - k;
    }

    method Take(lane: Class, want: nat) returns (k: nat)
      requires Valid()
      modifies this
      ensures Value() == Taken(p, old(Value()), lane, want) && Valid()
      ensures k == TakeCount(p, old(Value()), lane, want)
    {
      ghost var was := Value();
      TakeKeeps(p, was, lane, want);
      var open := Min(want, Whole(Open(p, Value(), lane)));
      if open <= 0 { return 0; }
      k := open;
      tokens := tokens - k as real;
      fastTokens := RMin(fastTokens, tokens);
      if lane == Bulk { lastFast := false; }
    }

    method Refund(n: nat, t: real)
      requires Valid() && t >= last
      modifies this
      ensures Value() == if n == 0 then old(Value()) else Refunded(p, Refilled(p, old(Value()), t), n)
      ensures Valid()
    {
      if n == 0 { return; }
      Refill(t);
      RefundKeeps(p, Value(), n);
      tokens := RMin(tokens + n as real, p.burst);
      fastTokens := RMin(fastTokens, tokens);
    }

    method Enter(lane: Class)
      requires Valid()
      modifies this
      ensures Value() == Entered(old(Value()), lane) && Valid()
    {
      if lane == Fast { fastPending := fastPending + 1; } else { bulkPending := bulkPending + 1; }
    }

    method Leave(lane: Class)
      requires Valid() && if lane == Fast then fastPending > 0 else bulkPending > 0
      modifies this
      ensures Value() == Left(old(Value()), lane) && Valid()
    {
      if lane == Fast { fastPending := fastPending - 1; } else { bulkPending := bulkPending - 1; }
    }
  }

  // ----- what each operation keeps and spends -----

  lemma NonNegative(x: real, y: real)
    requires 0.0 <= x && 0.0 <= y
    ensures 0.0 <= x * y
  {
  }

  lemma CreditOrder(e: real, a: real, b: real)
    requires e >= 0.0 && 0.0 <= a <= b
    ensures 0.0 <= Credit(e, a) <= Credit(e, b)
  {
    NonNegative(e, a);
    NonNegative(e, b - a);
    assert e * b == e * a + e * (b - a);
  }

  lemma NoTime(a: real)
    ensures Credit(0.0, a) == 0.0
  {
  }

  lemma CreditLonger(d: real, e: real, a: real)
    requires 0.0 <= d <= e && 0.0 <= a
    ensures Credit(d, a) <= Credit(e, a)
  {
    NonNegative(e - d, a);
    assert e * a == d * a + (e - d) * a;
  }

  /** Time credits at most the rate, and the reserve never rises above the bucket. */
  lemma RefillKeeps(p: Params, b: Bucket, t: real)
    requires Sound(p) && Level(p, b) && t >= b.last
    ensures Level(p, Refilled(p, b, t))
    ensures Refilled(p, b, t).tokens <= b.tokens + Credit(t - b.last, p.rate)
    ensures Refilled(p, b, t).tokens >= b.tokens && Refilled(p, b, t).fast >= b.fast
    ensures Refilled(p, b, t).fast == RMin(b.fast + Credit(t - b.last, p.reserveRate), p.reserve)
  {
    hide Credit;
    NoTime(p.reserveRate);
    CreditOrder(t - b.last, p.reserveRate, p.rate);
  }

  lemma WholeBelow(x: real, k: int)
    requires k <= Whole(x)
    ensures k as real <= x
  {
  }

  lemma DrawKeeps(p: Params, b: Bucket, want: nat)
    requires Sound(p) && Level(p, b)
    ensures Level(p, Drawn(p, b, want)) && DrawCount(p, b, want) <= want
    ensures Drawn(p, b, want).tokens == b.tokens - DrawCount(p, b, want) as real
    ensures Drawn(p, b, want).fast == b.fast - DrawCount(p, b, want) as real
    ensures Drawn(p, b, want).last == b.last
  {
    WholeBelow(b.fast, DrawCount(p, b, want));
  }

  /** On a bucket that is not time shared, what is taken outside the reserve leaves the reserve alone. */
  lemma TakeKeeps(p: Params, b: Bucket, lane: Class, want: nat)
    requires Sound(p) && Level(p, b)
    ensures Level(p, Taken(p, b, lane, want)) && TakeCount(p, b, lane, want) <= want
    ensures Taken(p, b, lane, want).tokens == b.tokens - TakeCount(p, b, lane, want) as real
    ensures Taken(p, b, lane, want).last == b.last
    ensures lane == Fast || !p.TimeShared() ==> Taken(p, b, lane, want).fast == b.fast
  {
    WholeBelow(Open(p, b, lane), TakeCount(p, b, lane, want));
  }

  lemma RefundKeeps(p: Params, b: Bucket, n: nat)
    requires Level(p, b)
    ensures Level(p, Refunded(p, b, n)) && Refunded(p, b, n).fast == b.fast
    ensures b.tokens <= Refunded(p, b, n).tokens <= b.tokens + n as real && Refunded(p, b, n).last == b.last
  {
  }

  // ----- runs -----

  /** One thing done under the lock. A caller's critical section is a refill followed by draws and takes. */
  datatype Action =
    | Refill(t: real)
    | Draw(want: nat)
    | Take(lane: Class, want: nat)
    | Refund(n: nat)
    | Enter(lane: Class)
    | Leave(lane: Class)

  /** The clock does not run back, and only a caller that entered leaves. */
  predicate Allowed(b: Bucket, a: Action) {
    match a
    case Refill(t) => t >= b.last
    case Leave(lane) => if lane == Fast then b.fastPending > 0 else b.bulkPending > 0
    case _ => true
  }

  function Step(p: Params, b: Bucket, a: Action): Bucket
    requires Allowed(b, a)
  {
    match a
    case Refill(t) => Refilled(p, b, t)
    case Draw(want) => Drawn(p, b, want)
    case Take(lane, want) => Taken(p, b, lane, want)
    case Refund(n) => Refunded(p, b, n)
    case Enter(lane) => Entered(b, lane)
    case Leave(lane) => Left(b, lane)
  }

  /** Tokens handed out by a step, less those given back. */
  function Granted(p: Params, b: Bucket, a: Action): int {
    match a
    case Draw(want) => DrawCount(p, b, want)
    case Take(lane, want) => TakeCount(p, b, lane, want)
    case Refund(n) => 0 - n
    case _ => 0
  }

  predicate Legal(p: Params, b: Bucket, run: seq<Action>)
    decreases |run|
  {
    run == [] || (Allowed(b, run[0]) && Legal(p, Step(p, b, run[0]), run[1..]))
  }

  function After(p: Params, b: Bucket, run: seq<Action>): Bucket
    requires Legal(p, b, run)
    decreases |run|
  {
    if run == [] then b else After(p, Step(p, b, run[0]), run[1..])
  }

  function Net(p: Params, b: Bucket, run: seq<Action>): int
    requires Legal(p, b, run)
    decreases |run|
  {
    if run == [] then 0 else Granted(p, b, run[0]) + Net(p, Step(p, b, run[0]), run[1..])
  }

  lemma StepKeeps(p: Params, b: Bucket, a: Action)
    requires Sound(p) && Level(p, b) && Allowed(b, a)
    ensures var c := Step(p, b, a);
            && Level(p, c) && c.last >= b.last
            && c.tokens + Granted(p, b, a) as real <= b.tokens + Credit(c.last - b.last, p.rate)
  {
    hide Refilled, Drawn, Taken, Refunded, DrawCount, TakeCount, Level, Credit;
    NoTime(p.rate);
    match a
    case Refill(t) =>
      RefillKeeps(p, b, t);
      RefillLast(p, b, t);
    case Draw(want) => DrawKeeps(p, b, want);
    case Take(lane, want) => TakeKeeps(p, b, lane, want);
    case Refund(n) => RefundKeeps(p, b, n);
    case Enter(lane) => PendingKeeps(p, b, Entered(b, lane));
    case Leave(lane) => PendingKeeps(p, b, Left(b, lane));
  }

  lemma RefillLast(p: Params, b: Bucket, t: real)
    ensures Refilled(p, b, t).last == t
  {
  }

  lemma PendingKeeps(p: Params, b: Bucket, c: Bucket)
    requires Level(p, b) && c.tokens == b.tokens && c.fast == b.fast
    ensures Level(p, c)
  {
  }

  lemma SpanAdds(rate: real, a: real, b: real, c: real)
    ensures Credit(b - a, rate) + Credit(c - b, rate) == Credit(c - a, rate)
  {
  }

  /** Over any interleaving the levels stay in bounds, and what was handed out and not given back came
      out of the bucket or out of elapsed time. */
  lemma {:induction false} RunKeeps(p: Params, b: Bucket, run: seq<Action>)
    requires Sound(p) && Level(p, b) && Legal(p, b, run)
    ensures var c := After(p, b, run);
            && Level(p, c) && c.last >= b.last
            && c.tokens + Net(p, b, run) as real <= b.tokens + Credit(c.last - b.last, p.rate)
    decreases |run|
  {
    hide Step, Granted, Level, Sound, Credit;
    NoTime(p.rate);
    if run != [] {
      var m := Step(p, b, run[0]);
      StepKeeps(p, b, run[0]);
      RunKeeps(p, m, run[1..]);
      SpanAdds(p.rate, b.last, m.last, After(p, b, run).last);
    }
  }

  /** The windowed budget: from any moment of any run of a new pacer, the calls passed in the following w
      seconds, less refunds, are at most burst + rate * w. The first thing done in a window refills. */
  lemma WindowBudget(cps: real, now: real, before: seq<Action>, t: real, window: seq<Action>, w: real)
    requires cps > 0.0
    requires var p := NewParams(cps); Legal(p, Full(p, now), before)
    requires var p := NewParams(cps); Legal(p, After(p, Full(p, now), before), [Refill(t)] + window)
    requires var p := NewParams(cps); After(p, After(p, Full(p, now), before), [Refill(t)] + window).last <= t + w
    ensures var p := NewParams(cps);
            Net(p, After(p, Full(p, now), before), [Refill(t)] + window) as real <= p.burst + Credit(w, p.rate)
  {
    var p := NewParams(cps);
    hide NewParams, Credit, Refilled;
    var b := After(p, Full(p, now), before);
    RunKeeps(p, Full(p, now), before);
    var run := [Refill(t)] + window;
    assert run[1..] == window;
    var c := Step(p, b, run[0]);
    StepKeeps(p, b, run[0]);
    RunKeeps(p, c, window);
    var e := After(p, c, window);
    assert After(p, b, run) == e && Net(p, b, run) == Net(p, c, window);
    RefillLast(p, b, t);
    CreditLonger(e.last - t, w, p.rate);
  }

  /** Whatever bulk callers take from a bucket that is not time shared, the reserve keeps its level. */
  lemma {:induction false} BulkNeverLowersReserve(p: Params, b: Bucket, run: seq<Action>)
    requires Sound(p) && Level(p, b) && Legal(p, b, run) && !p.TimeShared()
    requires forall i :: 0 <= i < |run| ==> !run[i].Draw?
    ensures After(p, b, run).fast >= b.fast
    decreases |run|
  {
    if run != [] {
      var a := run[0];
      StepKeeps(p, b, a);
      match a {
        case Refill(t) => RefillKeeps(p, b, t);
        case Take(lane, want) => TakeKeeps(p, b, lane, want);
        case Refund(n) => RefundKeeps(p, b, n);
        case _ =>
      }
      assert Step(p, b, a).fast >= b.fast;
      BulkNeverLowersReserve(p, Step(p, b, a), run[1..]);
    }
  }

  // ----- time sharing -----

  /** With both lanes waiting exactly one has the turn. */
  lemma OneTurn(b: Bucket)
    requires b.bulkPending > 0 && b.fastPending > 0
    ensures b.BulkTurn() <==> !b.FastTurn()
  {
  }

  /** The lanes served by a run, in order, with the tokens each service took. */
  function Services(p: Params, b: Bucket, run: seq<Action>): seq<(Class, nat)>
    requires Legal(p, b, run)
    decreases |run|
  {
    if run == [] then []
    else Served(p, b, run[0]) + Services(p, Step(p, b, run[0]), run[1..])
  }

  function Served(p: Params, b: Bucket, a: Action): seq<(Class, nat)> {
    match a
    case Draw(want) => if DrawCount(p, b, want) > 0 then [(Fast, DrawCount(p, b, want))] else []
    case Take(lane, want) => if TakeCount(p, b, lane, want) > 0 then [(lane, TakeCount(p, b, lane, want))] else []
    case _ => []
  }

  /** Both lanes have a waiting caller all along; Fast callers of a time-shared bucket only draw. */
  predicate Contended(p: Params, b: Bucket, run: seq<Action>)
    requires Legal(p, b, run)
    decreases |run|
  {
    && b.bulkPending > 0 && b.fastPending > 0
    && (run != [] ==> !(run[0].Take? && run[0].lane == Fast))
    && (run != [] ==> Contended(p, Step(p, b, run[0]), run[1..]))
  }

  function Other(c: Class): Class { if c == Fast then Bulk else Fast }

  /** Single whole tokens, the lanes in strict alternation, beginning with `first`. */
  ghost predicate Alternates(s: seq<(Class, nat)>, first: Class)
    decreases |s|
  {
    s == [] || (s[0] == (first, 1) && Alternates(s[1..], Other(first)))
  }

  function Due(b: Bucket): Class { if b.lastFast then Bulk else Fast }

  lemma ServedOnTurn(p: Params, b: Bucket, a: Action)
    requires Sound(p) && Level(p, b) && p.TimeShared() && Allowed(b, a)
    requires b.bulkPending > 0 && b.fastPending > 0 && !(a.Take? && a.lane == Fast)
    ensures Served(p, b, a) == [] ==> Due(Step(p, b, a)) == Due(b)
    ensures Served(p, b, a) != [] ==> Served(p, b, a) == [(Due(b), 1)] && Due(Step(p, b, a)) == Other(Due(b))
  {
    match a
    case Draw(want) => WholeBelow(b.fast, DrawCount(p, b, want));
    case Take(lane, want) => WholeBelow(b.tokens, TakeCount(p, b, lane, want));
    case _ =>
  }

  /** While both lanes of a time-shared bucket wait, whole tokens alternate strictly between them. */
  lemma {:induction false} LanesAlternate(p: Params, b: Bucket, run: seq<Action>)
    requires Sound(p) && Level(p, b) && p.TimeShared() && Legal(p, b, run) && Contended(p, b, run)
    ensures Alternates(Services(p, b, run), Due(b))
    decreases |run|
  {
    hide Served, Step, Sound, Level;
    if run != [] {
      var a := run[0];
      StepKeeps(p, b, a);
      ServedOnTurn(p, b, a);
      var rest := Services(p, Step(p, b, a), run[1..]);
      LanesAlternate(p, Step(p, b, a), run[1..]);
      if Served(p, b, a) == [] {
        assert [] + rest == rest;
      } else {
        assert ([(Due(b), 1)] + rest)[1..] == rest;
      }
    }
  }
}
