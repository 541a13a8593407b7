/** Requests paying the pacer and going on the wire: `attempt` and `send` of internal/nitro/client.go. Many
    requests are in hand at once; each is cancelled, refused or cooled down at any moment. */
module Wire {
  import opened Words
  import opened Pacer

  /** Where a request is: collecting tokens in Wait, holding all of them, waiting out a cooldown with
      nothing held, on the wire, or given up. */
  datatype Phase = Waiting | Paid | Cooling | Sent | Gone

  datatype Request = Request(lane: Class, calls: nat, held: nat, phase: Phase)

  datatype State = State(bucket: Bucket, requests: seq<Request>, granted: nat, refunded: nat, lost: nat, wire: nat)

  datatype Step =
    | Start(lane: Class, calls: nat)
    | Clock(t: real)
    | Lanes(enter: bool, lane: Class)
    | Draw(i: nat)
    | Take(i: nat)
    | Pay(i: nat)
    | Cancel(i: nat)
    | Refuse(i: nat)
    | Cooldown(i: nat)
    | Wake(i: nat)
    | Send(i: nat)

  predicate In(s: State, i: nat, phase: Phase) { i < |s.requests| && s.requests[i].phase == phase }

  /** A context can be cancelled while collecting or cooling; the rest follows the request's course. */
  predicate Enabled(s: State, step: Step) {
    match step
    case Start(_, _) => true
    case Clock(t) => t >= s.bucket.last
    case Lanes(enter, lane) => enter || (if lane == Fast then s.bucket.fastPending > 0 else s.bucket.bulkPending > 0)
    case Draw(i) => In(s, i, Waiting) && s.requests[i].lane == Fast && s.requests[i].held <= s.requests[i].calls
    case Take(i) => In(s, i, Waiting) && s.requests[i].held <= s.requests[i].calls
    case Pay(i) => In(s, i, Waiting) && s.requests[i].held == s.requests[i].calls
    case Cancel(i) => In(s, i, Waiting) || In(s, i, Cooling)
    case Refuse(i) => In(s, i, Paid)
    case Cooldown(i) => In(s, i, Paid)
    case Wake(i) => In(s, i, Cooling)
    case Send(i) => In(s, i, Paid)
  }

  function Put(s: State, i: nat, r: Request): State
    requires i < |s.requests|
  {
    s.(requests := s.requests[i := r])
  }

  function Next(p: Params, s: State, step: Step): State
    requires Enabled(s, step)
  {
    match step
    case Start(lane, calls) => s.(requests := s.requests + [Request(lane, calls, 0, Waiting)])
    case Clock(t) => s.(bucket := Refilled(p, s.bucket, t))
    case Lanes(enter, lane) => s.(bucket := if enter then Entered(s.bucket, lane) else Left(s.bucket, lane))
    case Draw(i) =>
      var r := s.requests[i];
      var want := r.calls - r.held;
      var k := DrawCount(p, s.bucket, want);
      Put(s, i, r.(held := r.held + k)).(bucket := Drawn(p, s.bucket, want), granted := s.granted + k)
    case Take(i) =>
      var r := s.requests[i];
      var want := r.calls - r.held;
      var k := TakeCount(p, s.bucket, r.lane, want);
      Put(s, i, r.(held := r.held + k)).(bucket := Taken(p, s.bucket, r.lane, want), granted := s.granted + k)
    case Pay(i) => Put(s, i, s.requests[i].(phase := Paid))
    case Cancel(i) => Put(s, i, s.requests[i].(held := 0, phase := Gone)).(lost := s.lost + s.requests[i].held)
    case Refuse(i) => GivenBack(p, s, i, Gone)
    case Cooldown(i) => GivenBack(p, s, i, Cooling)
    case Wake(i) => Put(s, i, s.requests[i].(phase := Waiting))
    case Send(i) => Put(s, i, s.requests[i].(held := 0, phase := Sent)).(wire := s.wire + s.requests[i].calls)
  }

  /** Every call of the request is refunded. */
  function GivenBack(p: Params, s: State, i: nat, phase: Phase): State
    requires i < |s.requests|
  {
    var r := s.requests[i];
    Put(s, i, r.(held := 0, phase := phase)).(bucket := Refunded(p, s.bucket, r.calls), refunded := s.refunded + r.calls)
  }

  // ----- conservation -----

  ghost function InHand(rs: seq<Request>, n: nat): nat
    requires n <= |rs|
  {
    if n == 0 then 0 else InHand(rs, n - 1) + rs[n - 1].held
  }

  lemma {:induction false} InHandSame(a: seq<Request>, b: seq<Request>, n: nat)
    requires n <= |a| && n <= |b| && forall k :: 0 <= k < n ==> a[k].held == b[k].held
    ensures InHand(a, n) == InHand(b, n)
  {
    if n > 0 { InHandSame(a, b, n - 1); }
  }

  lemma {:induction false} InHandPut(rs: seq<Request>, i: nat, r: Request, n: nat)
    requires i < n <= |rs|
    ensures InHand(rs[i := r], n) == InHand(rs, n) - rs[i].held + r.held
  {
    if i == n - 1 {
      InHandSame(rs, rs[i := r], n - 1);
    } else {
      InHandPut(rs, i, r, n - 1);
    }
  }

  ghost predicate RequestOk(r: Request) {
    && r.held <= r.calls
    && (r.phase == Paid ==> r.held == r.calls)
    && (r.phase in {Cooling, Sent, Gone} ==> r.held == 0)
  }

  /** Every token handed out was given back, went on the wire, was lost to a failed wait, or is in hand; and
      handed out less given back came from the burst or from elapsed time. */
  ghost predicate Inv(p: Params, began: real, s: State) {
    && Level(p, s.bucket) && s.bucket.last >= began
    && (forall i :: 0 <= i < |s.requests| ==> RequestOk(s.requests[i]))
    && s.granted == s.refunded + s.wire + s.lost + InHand(s.requests, |s.requests|)
    && s.bucket.tokens + (s.granted - s.refunded) as real <= p.burst + Credit(s.bucket.last - began, p.rate)
  }

  lemma PutKeeps(s: State, i: nat, r: Request)
    requires i < |s.requests| && RequestOk(r)
    requires forall k :: 0 <= k < |s.requests| ==> RequestOk(s.requests[k])
    ensures var t := Put(s, i, r);
            && (forall k :: 0 <= k < |t.requests| ==> RequestOk(t.requests[k]))
            && InHand(t.requests, |t.requests|) == InHand(s.requests, |s.requests|) - s.requests[i].held + r.held
  {
    hide RequestOk;
    InHandPut(s.requests, i, r, |s.requests|);
  }

  lemma ClockKeeps(p: Params, began: real, s: State, t: real)
    requires Sound(p) && Inv(p, began, s) && t >= s.bucket.last
    ensures Inv(p, began, s.(bucket := Refilled(p, s.bucket, t)))
  {
    hide Credit, Refilled, Sound, Level, InHand, RequestOk;
    RefillKeeps(p, s.bucket, t);
    RefillLast(p, s.bucket, t);
    SpanAdds(p.rate, began, s.bucket.last, t);
  }

  lemma StartKeeps(p: Params, began: real, s: State, r: Request)
    requires Inv(p, began, s) && r.held == 0 && RequestOk(r)
    ensures Inv(p, began, s.(requests := s.requests + [r]))
  {
    hide Credit, RequestOk;
    var rs := s.requests + [r];
    InHandSame(s.requests, rs, |s.requests|);
  }

  lemma DrawStep(p: Params, began: real, s: State, i: nat)
    requires Sound(p) && Inv(p, began, s) && Enabled(s, Step.Draw(i))
    ensures Inv(p, began, Next(p, s, Step.Draw(i)))
  {
    hide Credit, Drawn, DrawCount, Level, Sound, InHand;
    var r := s.requests[i];
    DrawKeeps(p, s.bucket, r.calls - r.held);
    PutKeeps(s, i, r.(held := r.held + DrawCount(p, s.bucket, r.calls - r.held)));
  }

  lemma TakeStep(p: Params, began: real, s: State, i: nat)
    requires Sound(p) && Inv(p, began, s) && Enabled(s, Step.Take(i))
    ensures Inv(p, began, Next(p, s, Step.Take(i)))
  {
    hide Credit, Taken, TakeCount, Level, Sound, InHand;
    var r := s.requests[i];
    TakeKeeps(p, s.bucket, r.lane, r.calls - r.held);
    PutKeeps(s, i, r.(held := r.held + TakeCount(p, s.bucket, r.lane, r.calls - r.held)));
  }

  lemma RefundStep(p: Params, began: real, s: State, i: nat, phase: Phase)
    requires Inv(p, began, s) && In(s, i, Paid) && phase in {Gone, Cooling}
    ensures Inv(p, began, GivenBack(p, s, i, phase))
  {
    hide Credit, Refunded, Level, InHand;
    RefundKeeps(p, s.bucket, s.requests[i].calls);
    PutKeeps(s, i, s.requests[i].(held := 0, phase := phase));
  }

  lemma StepKeeps(p: Params, began: real, s: State, step: Step)
    requires Sound(p) && Inv(p, began, s) && Enabled(s, step)
    ensures Inv(p, began, Next(p, s, step))
  {
    hide Credit, Refilled, Drawn, Taken, Refunded, DrawCount, TakeCount, Level, Sound, InHand;
    match step
    case Start(lane, calls) => StartKeeps(p, began, s, Request(lane, calls, 0, Waiting));
    case Clock(t) => ClockKeeps(p, began, s, t);
    case Lanes(enter, lane) => PendingKeeps(p, s.bucket, Next(p, s, step).bucket);
    case Draw(i) => DrawStep(p, began, s, i);
    case Take(i) => TakeStep(p, began, s, i);
    case Pay(i) => PutKeeps(s, i, s.requests[i].(phase := Paid));
    case Cancel(i) => PutKeeps(s, i, s.requests[i].(held := 0, phase := Gone));
    case Refuse(i) => RefundStep(p, began, s, i, Gone);
    case Cooldown(i) => RefundStep(p, began, s, i, Cooling);
    case Wake(i) => PutKeeps(s, i, s.requests[i].(phase := Waiting));
    case Send(i) => PutKeeps(s, i, s.requests[i].(held := 0, phase := Sent));
  }

  predicate Legal(p: Params, s: State, run: seq<Step>)
    decreases |run|
  {
    run == [] || (Enabled(s, run[0]) && Legal(p, Next(p, s, run[0]), run[1..]))
  }

  function After(p: Params, s: State, run: seq<Step>): State
    requires Legal(p, s, run)
    decreases |run|
  {
    if run == [] then s else After(p, Next(p, s, run[0]), run[1..])
  }

  lemma {:induction false} RunKeeps(p: Params, began: real, s: State, run: seq<Step>)
    requires Sound(p) && Inv(p, began, s) && Legal(p, s, run)
    ensures Inv(p, began, After(p, s, run))
    decreases |run|
  {
    hide Inv, Next, Sound;
    if run != [] {
      StepKeeps(p, began, s, run[0]);
      RunKeeps(p, began, Next(p, s, run[0]), run[1..]);
    }
  }

  function Idle(p: Params, now: real): State { State(Full(p, now), [], 0, 0, 0, 0) }

  /** Calls on the wire never exceed the tokens granted and not refunded, which never exceed the burst and
      what the rate brought since the pacer was made; the difference is in hand or was lost. */
  lemma WireWithinBudget(cps: real, now: real, run: seq<Step>)
    requires cps > 0.0
    requires var p := NewParams(cps); Legal(p, Idle(p, now), run)
    ensures var p := NewParams(cps);
            var s := After(p, Idle(p, now), run);
            && s.wire <= s.granted - s.refunded
            && s.granted - s.refunded == s.wire + s.lost + InHand(s.requests, |s.requests|)
            && (s.granted - s.refunded) as real <= p.burst + Credit(s.bucket.last - now, p.rate)
  {
    var p := NewParams(cps);
    NoTime(p.rate);
    hide Credit, NewParams;
    assert Inv(p, now, Idle(p, now));
    RunKeeps(p, now, Idle(p, now), run);
  }

  // ----- what goes on the wire -----

  ghost function SentCalls(rs: seq<Request>, n: nat): nat
    requires n <= |rs|
  {
    if n == 0 then 0 else SentCalls(rs, n - 1) + if rs[n - 1].phase == Sent then rs[n - 1].calls else 0
  }

  lemma {:induction false} SentSame(a: seq<Request>, b: seq<Request>, n: nat)
    requires n <= |a| && n <= |b| && forall k :: 0 <= k < n ==> a[k] == b[k]
    ensures SentCalls(a, n) == SentCalls(b, n)
  {
    if n > 0 { SentSame(a, b, n - 1); }
  }

  lemma {:induction false} SentPut(rs: seq<Request>, i: nat, r: Request, n: nat)
    requires i < n <= |rs| && rs[i].phase != Sent && r.calls == rs[i].calls
    ensures SentCalls(rs[i := r], n) == SentCalls(rs, n) + if r.phase == Sent then r.calls else 0
  {
    if i == n - 1 { SentSame(rs, rs[i := r], n - 1); } else { SentPut(rs, i, r, n - 1); }
  }

  /** A step puts a request's calls on the wire only when it holds a token for each, and then all of them at once. */
  lemma SendPays(p: Params, began: real, s: State, step: Step)
    requires Inv(p, began, s) && Enabled(s, step)
    ensures Next(p, s, step).wire == s.wire + if step.Send? then s.requests[step.i].held else 0
    ensures step.Send? ==> s.requests[step.i].held == s.requests[step.i].calls
  {
    hide Refilled, Drawn, Taken, Refunded, DrawCount, TakeCount, Level, InHand, Credit, Entered, Left;
  }

  /** A request refused or cooled down before the wire gives the bucket back every token it held, up to the burst. */
  lemma RefundReachesBucket(p: Params, began: real, s: State, step: Step)
    requires Inv(p, began, s) && Enabled(s, step) && (step.Refuse? || step.Cooldown?)
    ensures var t, n := Next(p, s, step), s.requests[step.i].held;
            && t.refunded == s.refunded + n && t.requests[step.i].held == 0
            && (s.bucket.tokens + n as real <= p.burst ==> t.bucket.tokens == s.bucket.tokens + n as real)
            && (s.bucket.tokens + n as real > p.burst ==> t.bucket.tokens == p.burst)
            && t.bucket.fast == s.bucket.fast
  {
    RefundKeeps(p, s.bucket, s.requests[step.i].calls);
  }

  /** What is on the wire is exactly the calls of the requests that were sent. */
  lemma {:induction false} WireIsSent(p: Params, began: real, s: State, run: seq<Step>)
    requires Sound(p) && Inv(p, began, s) && Legal(p, s, run) && s.wire == SentCalls(s.requests, |s.requests|)
    ensures var t := After(p, s, run); t.wire == SentCalls(t.requests, |t.requests|)
    decreases |run|
  {
    if run != [] {
      hide Inv, Sound, Next, SentCalls;
      StepKeeps(p, began, s, run[0]);
      StepSent(p, s, run[0]);
      WireIsSent(p, began, Next(p, s, run[0]), run[1..]);
    }
  }

  lemma StepSent(p: Params, s: State, step: Step)
    requires Enabled(s, step) && s.wire == SentCalls(s.requests, |s.requests|)
    ensures var t := Next(p, s, step); t.wire == SentCalls(t.requests, |t.requests|)
  {
    hide Refilled, Drawn, Taken, Refunded, DrawCount, TakeCount, Entered, Left;
    var t := Next(p, s, step);
    if step.Start? {
      SentSame(s.requests, t.requests, |s.requests|);
    } else if !step.Clock? && !step.Lanes? {
      SentPut(s.requests, step.i, t.requests[step.i], |s.requests|);
    }
  }
}
