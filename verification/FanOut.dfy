/** A batch spread over several workers (internal/nitro/endpoint.go): ranges come off a shared cursor, a
    failure stops further ranges from being taken, and the error kept is the lowest range's. */
module FanOut {
  import opened Words
  import opened Endpoint

  datatype Status = InFlight | Done | Lost(error: Error)

  datatype Range = Range(start: nat, end: nat, status: Status)

  /** A worker about to take a range, sending the k-th taken range, or gone. */
  datatype Worker = Ready | Busy(k: nat) | Stopped

  datatype Failure = Failure(at: nat, error: Error)

  /** `ranges` are those taken so far, in the order they were taken. */
  datatype State = State(next: nat, failure: Option<Failure>, ranges: seq<Range>, workers: seq<Worker>, out: seq<Result>)

  datatype Step =
    | Take(w: nat)
    | Succeed(w: nat, results: seq<Result>)
    | Fail(w: nat, error: Error, partial: seq<Result>)

  datatype Job = Job(reqs: seq<Request>, width: nat)

  /** A worker that succeeds has what sendRange promises; one that fails has written what it likes into
      its own range. */
  ghost predicate Enabled(job: Job, answers: (Request, Result) -> bool, s: State, step: Step) {
    match step
    case Take(w) => w < |s.workers| && s.workers[w] == Ready
    case Succeed(w, results) =>
      && w < |s.workers| && s.workers[w].Busy? && s.workers[w].k < |s.ranges|
      && var r := s.ranges[s.workers[w].k];
      && r.start <= r.end <= |job.reqs| && |results| == r.end - r.start
      && forall i :: 0 <= i < |results| ==> Settled(answers, job.reqs[r.start + i], results[i])
    case Fail(w, _, partial) =>
      && w < |s.workers| && s.workers[w].Busy? && s.workers[w].k < |s.ranges|
      && var r := s.ranges[s.workers[w].k];
      && r.start <= r.end <= |job.reqs| && |partial| == r.end - r.start
  }

  function Write(out: seq<Result>, at: nat, rs: seq<Result>): (r: seq<Result>)
    requires at + |rs| <= |out|
    ensures |r| == |out|
    ensures forall i :: 0 <= i < |out| ==> r[i] == if at <= i < at + |rs| then rs[i - at] else out[i]
  {
    out[..at] + rs + out[at + |rs|..]
  }

  function Worse(f: Option<Failure>, at: nat, e: Error): Option<Failure> {
    if f.None? || at < f.value.at then Some(Failure(at, e)) else f
  }

  ghost function Next(job: Job, answers: (Request, Result) -> bool, s: State, step: Step): State
    requires Enabled(job, answers, s, step) && |s.out| == |job.reqs|
  {
    match step
    case Take(w) =>
      if s.failure.Some? || s.next >= |job.reqs| then s.(workers := s.workers[w := Stopped])
      else
        var end := Min(s.next + job.width, |job.reqs|);
        s.(next := end, ranges := s.ranges + [Range(s.next, end, InFlight)], workers := s.workers[w := Busy(|s.ranges|)])
    case Succeed(w, results) =>
      var k := s.workers[w].k;
      s.(ranges := s.ranges[k := s.ranges[k].(status := Done)], workers := s.workers[w := Ready],
         out := Write(s.out, s.ranges[k].start, results))
    case Fail(w, error, partial) =>
      var k := s.workers[w].k;
      s.(ranges := s.ranges[k := s.ranges[k].(status := Lost(error))], workers := s.workers[w := Stopped],
         failure := Worse(s.failure, s.ranges[k].start, error), out := Write(s.out, s.ranges[k].start, partial))
  }

  // ----- the invariant -----

  /** What is handed out tiles [0, next) in order, each piece non-empty. */
  ghost predicate Tiles(s: State) {
    && (forall k :: 0 <= k < |s.ranges| ==> s.ranges[k].start < s.ranges[k].end)
    && (forall k :: 0 <= k < |s.ranges| - 1 ==> s.ranges[k].end == s.ranges[k + 1].start)
    && (s.ranges != [] ==> s.ranges[0].start == 0)
    && s.next == if s.ranges == [] then 0 else s.ranges[|s.ranges| - 1].end
  }

  ghost predicate Apart(s: State) { forall i, j :: 0 <= i < j < |s.ranges| ==> s.ranges[i].end <= s.ranges[j].start }

  /** A range in flight has exactly one worker. */
  ghost predicate Manned(s: State) {
    && (forall w :: 0 <= w < |s.workers| && s.workers[w].Busy? ==>
          s.workers[w].k < |s.ranges| && s.ranges[s.workers[w].k].status == InFlight)
    && (forall v, w :: 0 <= v < w < |s.workers| && s.workers[v].Busy? ==> s.workers[v] != s.workers[w])
    && (forall k :: 0 <= k < |s.ranges| && s.ranges[k].status == InFlight ==> Busy(k) in s.workers)
  }

  ghost predicate LostAt(s: State, k: nat, f: Failure) {
    k < |s.ranges| && s.ranges[k].start == f.at && s.ranges[k].status == Lost(f.error)
  }

  /** The failure kept is that of the lowest range that failed. */
  ghost predicate Lowest(s: State) {
    && (s.failure.None? ==> forall k :: 0 <= k < |s.ranges| ==> !s.ranges[k].status.Lost?)
    && (s.failure.Some? ==>
          && (exists k :: LostAt(s, k, s.failure.value))
          && forall k :: 0 <= k < |s.ranges| && s.ranges[k].status.Lost? ==> s.failure.value.at <= s.ranges[k].start)
  }

  /** Finished ranges hold the answers to their own requests. */
  ghost predicate Filled(job: Job, answers: (Request, Result) -> bool, s: State)
    requires |s.out| == |job.reqs|
  {
    forall k, i :: 0 <= k < |s.ranges| && s.ranges[k].status == Done && s.ranges[k].start <= i < s.ranges[k].end && i < |job.reqs| ==>
      Settled(answers, job.reqs[i], s.out[i])
  }

  ghost predicate Sized(job: Job, s: State) {
    && |s.out| == |job.reqs| && s.next <= |job.reqs| && job.width >= 1
    && (forall k :: 0 <= k < |s.ranges| ==> s.ranges[k].end <= s.next)
  }

  /** Without a failure a worker only stops when everything is handed out. */
  ghost predicate StopsLate(job: Job, s: State) { s.failure.None? && Stopped in s.workers ==> s.next == |job.reqs| }

  ghost predicate Inv(job: Job, answers: (Request, Result) -> bool, s: State) {
    Sized(job, s) && Tiles(s) && Apart(s) && Manned(s) && Lowest(s) && StopsLate(job, s) && Filled(job, answers, s)
  }

  // ----- taking a range -----

  lemma TakeManned(s: State, w: nat, t: State, r: Range)
    requires Manned(s) && w < |s.workers| && s.workers[w] == Ready && r.status == InFlight
    requires t.ranges == s.ranges + [r] && t.workers == s.workers[w := Busy(|s.ranges|)]
    ensures Manned(t)
  {
    forall k | 0 <= k < |t.ranges| && t.ranges[k].status == InFlight ensures Busy(k) in t.workers {
      if k == |s.ranges| {
        assert t.workers[w] == Busy(k);
      } else {
        var v :| 0 <= v < |s.workers| && s.workers[v] == Busy(k);
        assert t.workers[v] == Busy(k);
      }
    }
  }

  lemma TakeLowest(s: State, t: State, r: Range)
    requires Lowest(s) && t.ranges == s.ranges + [r] && t.failure == s.failure && !r.status.Lost?
    ensures Lowest(t)
  {
    if s.failure.Some? {
      var k :| LostAt(s, k, s.failure.value);
      assert LostAt(t, k, s.failure.value);
    }
  }

  lemma TakeKeeps(job: Job, answers: (Request, Result) -> bool, s: State, w: nat)
    requires Inv(job, answers, s) && Enabled(job, answers, s, Take(w))
    ensures Inv(job, answers, Next(job, answers, s, Take(w)))
  {
    var t := Next(job, answers, s, Take(w));
    if s.failure.Some? || s.next >= |job.reqs| {
      hide Tiles, Apart, Filled, LostAt;
      StopManned(s, w, t);
      hide Manned;
      assert Lowest(t) by { SameLowest(s, t); }
      hide Lowest;
      assert t.ranges == s.ranges + [];
      assert Filled(job, answers, t) by { SameFilled(job, answers, s, t, []); }
      assert Tiles(t) && Apart(t) by { SameTiles(s, t); }
    } else {
      var r := t.ranges[|s.ranges|];
      TakeManned(s, w, t, r);
      TakeLowest(s, t, r);
      TakeShape(job, s, t, r);
      SameFilled(job, answers, s, t, [r]);
      StillNotStopped(s.workers, w, Busy(|s.ranges|));
      hide Manned, Lowest, Filled, Tiles, Apart;
    }
  }

  lemma SameTiles(s: State, t: State)
    requires Tiles(s) && Apart(s) && t.ranges == s.ranges && t.next == s.next
    ensures Tiles(t) && Apart(t)
  {
  }

  lemma SameLowest(s: State, t: State)
    requires Lowest(s) && t.ranges == s.ranges && t.failure == s.failure
    ensures Lowest(t)
  {
    if s.failure.Some? {
      var k :| LostAt(s, k, s.failure.value);
      assert LostAt(t, k, s.failure.value);
    }
  }

  lemma SameFilled(job: Job, answers: (Request, Result) -> bool, s: State, t: State, more: seq<Range>)
    requires |s.out| == |job.reqs| && Filled(job, answers, s) && t.out == s.out && t.ranges == s.ranges + more
    requires forall k :: 0 <= k < |more| ==> more[k].status != Done
    ensures Filled(job, answers, t)
  {
    forall k, i | 0 <= k < |t.ranges| && t.ranges[k].status == Done && t.ranges[k].start <= i < t.ranges[k].end && i < |job.reqs|
      ensures Settled(answers, job.reqs[i], t.out[i])
    {
      assert t.ranges[k] == s.ranges[k];
    }
  }

  lemma TakeShape(job: Job, s: State, t: State, r: Range)
    requires Sized(job, s) && Tiles(s) && Apart(s) && s.next < |job.reqs|
    requires r.start == s.next && r.end == Min(s.next + job.width, |job.reqs|)
    requires t.next == r.end && t.ranges == s.ranges + [r] && t.out == s.out
    ensures Sized(job, t) && Tiles(t) && Apart(t)
  {
    assert forall k :: 0 <= k < |s.ranges| ==> t.ranges[k] == s.ranges[k];
    assert t.ranges[|s.ranges|] == r;
    assert Sized(job, t) by { hide Tiles, Apart; }
    TakeTiles(s, t, r);
    hide Tiles;
    assert Apart(t);
  }

  lemma TakeTiles(s: State, t: State, r: Range)
    requires Tiles(s) && r.start == s.next < r.end && t.next == r.end && t.ranges == s.ranges + [r]
    ensures Tiles(t)
  {
    forall k | 0 <= k < |t.ranges| - 1 ensures t.ranges[k].end == t.ranges[k + 1].start {
      if k + 1 < |s.ranges| { assert s.ranges[k].end == s.ranges[k + 1].start; }
    }
  }

  lemma StillNotStopped(ws: seq<Worker>, w: nat, x: Worker)
    requires w < |ws| && x != Stopped
    ensures Stopped in ws[w := x] ==> Stopped in ws
  {
  }

  lemma StopManned(s: State, w: nat, t: State)
    requires Manned(s) && w < |s.workers| && s.workers[w] == Ready && t.ranges == s.ranges && t.workers == s.workers[w := Stopped]
    ensures Manned(t)
  {
    forall k | 0 <= k < |t.ranges| && t.ranges[k].status == InFlight ensures Busy(k) in t.workers {
      var v :| 0 <= v < |s.workers| && s.workers[v] == Busy(k);
      assert t.workers[v] == Busy(k);
    }
  }

  // ----- finishing one -----

  /** The worker lets go of its range, which is no longer in flight. */
  lemma LetGoManned(s: State, w: nat, t: State, status: Status, x: Worker)
    requires Manned(s) && w < |s.workers| && s.workers[w].Busy? && status != InFlight && !x.Busy?
    requires var k := s.workers[w].k; t.ranges == s.ranges[k := s.ranges[k].(status := status)]
    requires t.workers == s.workers[w := x]
    ensures Manned(t)
  {
    var k := s.workers[w].k;
    forall j | 0 <= j < |t.ranges| && t.ranges[j].status == InFlight ensures Busy(j) in t.workers {
      var v :| 0 <= v < |s.workers| && s.workers[v] == Busy(j);
      assert t.workers[v] == Busy(j);
    }
  }

  lemma LetGoShape(job: Job, s: State, t: State, k: nat, status: Status)
    requires Sized(job, s) && Tiles(s) && Apart(s) && k < |s.ranges| && t.ranges == s.ranges[k := s.ranges[k].(status := status)]
    requires t.next == s.next && |t.out| == |s.out|
    ensures Sized(job, t) && Tiles(t) && Apart(t)
  {
    assert forall j :: 0 <= j < |t.ranges| ==> t.ranges[j].start == s.ranges[j].start && t.ranges[j].end == s.ranges[j].end;
    assert Sized(job, t) by { hide Tiles, Apart; }
    assert Apart(t) by { hide Tiles, Sized; }
    LetGoTiles(s, t);
  }

  lemma LetGoTiles(s: State, t: State)
    requires Tiles(s) && |t.ranges| == |s.ranges| && t.next == s.next
    requires forall j :: 0 <= j < |t.ranges| ==> t.ranges[j].start == s.ranges[j].start && t.ranges[j].end == s.ranges[j].end
    ensures Tiles(t)
  {
    forall j | 0 <= j < |t.ranges| - 1 ensures t.ranges[j].end == t.ranges[j + 1].start {
      assert s.ranges[j].end == s.ranges[j + 1].start;
    }
  }

  lemma OthersFilled(job: Job, answers: (Request, Result) -> bool, s: State, t: State, k: nat, rs: seq<Result>, status: Status)
    requires Sized(job, s) && Apart(s) && Filled(job, answers, s) && k < |s.ranges| && s.ranges[k].start < s.ranges[k].end
    requires |rs| == s.ranges[k].end - s.ranges[k].start
    requires t.ranges == s.ranges[k := s.ranges[k].(status := status)] && t.out == Write(s.out, s.ranges[k].start, rs)
    requires status == Done ==> forall i :: 0 <= i < |rs| ==> Settled(answers, job.reqs[s.ranges[k].start + i], rs[i])
    ensures Filled(job, answers, t)
  {
    forall j, i | 0 <= j < |t.ranges| && t.ranges[j].status == Done && t.ranges[j].start <= i < t.ranges[j].end && i < |job.reqs|
      ensures Settled(answers, job.reqs[i], t.out[i])
    {
      if j == k {
        assert t.out[i] == rs[i - s.ranges[k].start];
      } else {
        assert t.ranges[j] == s.ranges[j];
        assert j < k ==> s.ranges[j].end <= s.ranges[k].start;
        assert k < j ==> s.ranges[k].end <= s.ranges[j].start;
        assert t.out[i] == s.out[i];
      }
    }
  }

  lemma SucceedLowest(s: State, t: State, k: nat)
    requires Lowest(s) && k < |s.ranges| && s.ranges[k].status == InFlight
    requires t.ranges == s.ranges[k := s.ranges[k].(status := Done)] && t.failure == s.failure
    ensures Lowest(t)
  {
    if s.failure.Some? {
      var j :| LostAt(s, j, s.failure.value);
      assert LostAt(t, j, s.failure.value);
    }
  }

  lemma FailLowest(s: State, t: State, k: nat, e: Error)
    requires Lowest(s) && k < |s.ranges| && s.ranges[k].status == InFlight
    requires t.ranges == s.ranges[k := s.ranges[k].(status := Lost(e))]
    requires t.failure == Worse(s.failure, s.ranges[k].start, e)
    ensures Lowest(t)
  {
    if s.failure.Some? && s.ranges[k].start >= s.failure.value.at {
      var j :| LostAt(s, j, s.failure.value);
      assert LostAt(t, j, s.failure.value);
    } else {
      assert LostAt(t, k, t.failure.value);
    }
  }

  lemma SucceedKeeps(job: Job, answers: (Request, Result) -> bool, s: State, w: nat, results: seq<Result>)
    requires Inv(job, answers, s) && Enabled(job, answers, s, Succeed(w, results))
    ensures Inv(job, answers, Next(job, answers, s, Succeed(w, results)))
  {
    hide Lowest, Filled, Tiles, Apart, Write, StopsLate;
    Success(job, answers, s, w, results);
    hide Next, Enabled, Inv, Settled;
    SuccessInv(job, answers, s, Next(job, answers, s, Succeed(w, results)), w, results);
  }

  lemma SuccessInv(job: Job, answers: (Request, Result) -> bool, s: State, t: State, w: nat, results: seq<Result>)
    requires Inv(job, answers, s) && w < |s.workers| && s.workers[w].Busy?
    requires var k := s.workers[w].k;
             && k < |s.ranges| && s.ranges[k].status == InFlight
             && |results| == s.ranges[k].end - s.ranges[k].start && s.ranges[k].end <= |job.reqs|
             && (forall i :: 0 <= i < |results| ==> Settled(answers, job.reqs[s.ranges[k].start + i], results[i]))
             && t.ranges == s.ranges[k := s.ranges[k].(status := Done)] && t.workers == s.workers[w := Ready]
             && t.next == s.next && t.failure == s.failure && t.out == Write(s.out, s.ranges[k].start, results)
    ensures Inv(job, answers, t)
  {
    var k := s.workers[w].k;
    NonEmpty(s, k);
    hide Lowest, Filled, Tiles, Apart, Settled, Write, Sized, StopsLate, Manned;
    LetGoManned(s, w, t, Done, Ready);
    LetGoShape(job, s, t, k, Done);
    OthersFilled(job, answers, s, t, k, results, Done);
    SucceedLowest(s, t, k);
    LetGoStops(job, s, t, w, Ready);
  }

  lemma NonEmpty(s: State, k: nat)
    requires Tiles(s) && k < |s.ranges|
    ensures s.ranges[k].start < s.ranges[k].end
  {
  }

  /** What a success changes. */
  lemma Success(job: Job, answers: (Request, Result) -> bool, s: State, w: nat, results: seq<Result>)
    requires |s.out| == |job.reqs| && Manned(s) && Enabled(job, answers, s, Succeed(w, results))
    ensures var t, k := Next(job, answers, s, Succeed(w, results)), s.workers[w].k;
            && w < |s.workers| && s.workers[w].Busy? && k < |s.ranges| && s.ranges[k].status == InFlight
            && |results| == s.ranges[k].end - s.ranges[k].start && s.ranges[k].end <= |job.reqs|
            && (forall i :: 0 <= i < |results| ==> Settled(answers, job.reqs[s.ranges[k].start + i], results[i]))
            && t.ranges == s.ranges[k := s.ranges[k].(status := Done)] && t.workers == s.workers[w := Ready]
            && t.next == s.next && t.failure == s.failure && t.out == Write(s.out, s.ranges[k].start, results)
  {
    hide Settled;
  }

  lemma LetGoStops(job: Job, s: State, t: State, w: nat, x: Worker)
    requires StopsLate(job, s) && w < |s.workers| && t.workers == s.workers[w := x] && t.next == s.next
    requires (t.failure == s.failure && x != Stopped) || t.failure.Some?
    ensures StopsLate(job, t)
  {
    if x != Stopped { StillNotStopped(s.workers, w, x); }
  }

  lemma FailKeeps(job: Job, answers: (Request, Result) -> bool, s: State, w: nat, e: Error, partial: seq<Result>)
    requires Inv(job, answers, s) && Enabled(job, answers, s, Fail(w, e, partial))
    ensures Inv(job, answers, Next(job, answers, s, Fail(w, e, partial)))
  {
    var t, k := Next(job, answers, s, Fail(w, e, partial)), s.workers[w].k;
    Loss(job, answers, s, w, e, partial);
    assert s.ranges[k].start < s.ranges[k].end;
    hide Lowest, Filled, Tiles, Apart, Settled, Next, Enabled, Write, Sized, StopsLate;
    LetGoManned(s, w, t, Lost(e), Stopped);
    LetGoShape(job, s, t, k, Lost(e));
    OthersFilled(job, answers, s, t, k, partial, Lost(e));
    FailLowest(s, t, k, e);
    LetGoStops(job, s, t, w, Stopped);
  }

  lemma Loss(job: Job, answers: (Request, Result) -> bool, s: State, w: nat, e: Error, partial: seq<Result>)
    requires |s.out| == |job.reqs| && Manned(s) && Enabled(job, answers, s, Fail(w, e, partial))
    ensures var t, k := Next(job, answers, s, Fail(w, e, partial)), s.workers[w].k;
            && w < |s.workers| && k < |s.ranges| && s.ranges[k].status == InFlight
            && |partial| == s.ranges[k].end - s.ranges[k].start && s.ranges[k].end <= |job.reqs|
            && t.ranges == s.ranges[k := s.ranges[k].(status := Lost(e))] && t.workers == s.workers[w := Stopped]
            && t.next == s.next && t.failure == Worse(s.failure, s.ranges[k].start, e)
            && t.out == Write(s.out, s.ranges[k].start, partial)
  {
  }

  lemma StepKeeps(job: Job, answers: (Request, Result) -> bool, s: State, step: Step)
    requires Inv(job, answers, s) && Enabled(job, answers, s, step)
    ensures Inv(job, answers, Next(job, answers, s, step))
  {
    hide Inv, Next;
    assert |s.out| == |job.reqs| by { OutSized(job, answers, s); }
    match step
    case Take(w) => TakeKeeps(job, answers, s, w);
    case Succeed(w, results) => SucceedKeeps(job, answers, s, w, results);
    case Fail(w, e, partial) => FailKeeps(job, answers, s, w, e, partial);
  }

  lemma OutSized(job: Job, answers: (Request, Result) -> bool, s: State)
    requires Inv(job, answers, s)
    ensures |s.out| == |job.reqs|
  {
  }

  // ----- whole runs -----

  ghost predicate Legal(job: Job, answers: (Request, Result) -> bool, s: State, run: seq<Step>)
    decreases |run|
  {
    run == [] || (
      && |s.out| == |job.reqs| && Enabled(job, answers, s, run[0])
      && Legal(job, answers, Next(job, answers, s, run[0]), run[1..]))
  }

  ghost function After(job: Job, answers: (Request, Result) -> bool, s: State, run: seq<Step>): State
    requires Legal(job, answers, s, run)
    decreases |run|
  {
    if run == [] then s else After(job, answers, Next(job, answers, s, run[0]), run[1..])
  }

  lemma {:induction false} RunKeeps(job: Job, answers: (Request, Result) -> bool, s: State, run: seq<Step>)
    requires Inv(job, answers, s) && Legal(job, answers, s, run)
    ensures Inv(job, answers, After(job, answers, s, run)) && |After(job, answers, s, run).workers| == |s.workers|
    decreases |run|
  {
    hide Inv, Next, Enabled;
    if run != [] {
      StepKeeps(job, answers, s, run[0]);
      SameWorkers(job, answers, s, run[0]);
      RunKeeps(job, answers, Next(job, answers, s, run[0]), run[1..]);
    }
  }

  lemma SameWorkers(job: Job, answers: (Request, Result) -> bool, s: State, step: Step)
    requires |s.out| == |job.reqs| && Enabled(job, answers, s, step)
    ensures |Next(job, answers, s, step).workers| == |s.workers|
  {
  }

  function Fresh(job: Job, workers: nat, out: seq<Result>): State {
    State(0, None, [], seq(workers, _ => Ready), out)
  }

  ghost predicate Over(s: State) { forall w :: 0 <= w < |s.workers| ==> s.workers[w] == Stopped }

  /** The ranges taken cover every index below the cursor. */
  lemma {:induction false} TileAt(s: State, n: nat, i: nat) returns (k: nat)
    requires Tiles(s) && n <= |s.ranges| && n > 0 && i < s.ranges[n - 1].end
    ensures k < n && s.ranges[k].start <= i < s.ranges[k].end
    decreases n
  {
    if s.ranges[n - 1].start <= i {
      k := n - 1;
    } else {
      assert n - 1 > 0 && s.ranges[n - 2].end == s.ranges[n - 2 + 1].start;
      k := TileAt(s, n - 1, i);
    }
  }

  /** Whatever the interleaving: when all workers have stopped without a failure, every index holds an
      answer to its own request. */
  lemma EveryIndexAnswered(job: Job, answers: (Request, Result) -> bool, workers: nat, out: seq<Result>, run: seq<Step>, i: nat)
    requires job.width >= 1 && workers >= 1 && |out| == |job.reqs|
    requires Legal(job, answers, Fresh(job, workers, out), run)
    requires var s := After(job, answers, Fresh(job, workers, out), run); Over(s) && s.failure.None?
    requires i < |job.reqs|
    ensures var s := After(job, answers, Fresh(job, workers, out), run);
            |s.out| == |job.reqs| && Settled(answers, job.reqs[i], s.out[i])
  {
    var f := Fresh(job, workers, out);
    assert Inv(job, answers, f);
    RunKeeps(job, answers, f, run);
    var s := After(job, answers, f, run);
    hide After, Legal;
    assert s.workers[0] == Stopped;
    assert s.next == |job.reqs|;
    var k := TileAt(s, |s.ranges|, i);
    NoneInFlight(s, k);
  }

  lemma NoneInFlight(s: State, k: nat)
    requires Manned(s) && Over(s) && k < |s.ranges|
    ensures s.ranges[k].status != InFlight
  {
  }

  /** And when one failed, the error is that of the lowest range that did, among the ranges taken. */
  lemma LowestErrorKept(job: Job, answers: (Request, Result) -> bool, workers: nat, out: seq<Result>, run: seq<Step>)
    requires job.width >= 1 && |out| == |job.reqs|
    requires Legal(job, answers, Fresh(job, workers, out), run)
    ensures var s := After(job, answers, Fresh(job, workers, out), run);
            && Tiles(s)
            && (s.failure.Some? <==> exists k :: 0 <= k < |s.ranges| && s.ranges[k].status.Lost?)
            && (s.failure.Some? ==>
                  && (exists k :: LostAt(s, k, s.failure.value))
                  && forall k :: 0 <= k < |s.ranges| && s.ranges[k].status.Lost? ==> s.failure.value.at <= s.ranges[k].start)
  {
    var f := Fresh(job, workers, out);
    assert Inv(job, answers, f);
    RunKeeps(job, answers, f, run);
  }

  lemma StepAfterFailure(job: Job, answers: (Request, Result) -> bool, s: State, step: Step)
    requires Inv(job, answers, s) && Enabled(job, answers, s, step) && s.failure.Some?
    ensures var t := Next(job, answers, s, step);
            t.failure.Some? && t.next == s.next && |t.ranges| == |s.ranges| && t.failure.value.at <= s.failure.value.at
  {
    hide Tiles, Apart, Manned, Lowest, StopsLate, Filled;
  }

  /** Once a range has failed no further one is taken; those in flight finish. */
  lemma {:induction false} NoneTakenAfterFailure(job: Job, answers: (Request, Result) -> bool, s: State, run: seq<Step>)
    requires Inv(job, answers, s) && s.failure.Some? && Legal(job, answers, s, run)
    ensures var t := After(job, answers, s, run);
            t.failure.Some? && t.next == s.next && |t.ranges| == |s.ranges| && t.failure.value.at <= s.failure.value.at
    decreases |run|
  {
    hide Inv, Next, Enabled;
    if run != [] {
      OutSized(job, answers, s);
      StepKeeps(job, answers, s, run[0]);
      StepAfterFailure(job, answers, s, run[0]);
      NoneTakenAfterFailure(job, answers, Next(job, answers, s, run[0]), run[1..]);
    }
  }

  /** Ranges are whole chunks of the width, the last what is left. */
  ghost predicate Chunked(job: Job, s: State) { forall k :: 0 <= k < |s.ranges| ==> Chunk(job, s.ranges[k]) }

  ghost predicate Chunk(job: Job, r: Range) {
    r.end == if r.start + job.width <= |job.reqs| then r.start + job.width else |job.reqs|
  }

  lemma StepChunked(job: Job, answers: (Request, Result) -> bool, s: State, step: Step)
    requires Inv(job, answers, s) && Enabled(job, answers, s, step) && Chunked(job, s)
    ensures Chunked(job, Next(job, answers, s, step))
  {
    hide Tiles, Apart, Manned, Lowest, StopsLate, Filled;
    match step
    case Take(w) =>
    case Succeed(w, _) => assert Chunk(job, s.ranges[s.workers[w].k]);
    case Fail(w, _, _) => assert Chunk(job, s.ranges[s.workers[w].k]);
  }

  lemma {:induction false} RangesAreChunks(job: Job, answers: (Request, Result) -> bool, s: State, run: seq<Step>)
    requires Inv(job, answers, s) && Chunked(job, s) && Legal(job, answers, s, run)
    ensures Chunked(job, After(job, answers, s, run))
    decreases |run|
  {
    hide Inv, Next, Enabled, Chunked;
    if run != [] {
      OutSized(job, answers, s);
      StepKeeps(job, answers, s, run[0]);
      StepChunked(job, answers, s, run[0]);
      RangesAreChunks(job, answers, Next(job, answers, s, run[0]), run[1..]);
    }
  }
}
