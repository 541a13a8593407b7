/** One JSON-RPC endpoint (internal/nitro/endpoint.go and the matching of internal/nitro/client.go): answers
    matched to requests by id, batches cut to a cap that adapts to throttling and refusals. */
module Endpoint {
  import opened Words

  type Request = string

  datatype Error = Error(code: int, message: string)

  const RESPONSE_TOO_LARGE: int := -32003

  datatype Response = Response(id: nat, error: Option<Error>, raw: string)

  datatype Result = Raw(raw: string) | Failed(error: Error) | Missing(id: nat)

  // ----- matching by id -----

  function ResultOf(r: Response): Result { if r.error.Some? then Failed(r.error.value) else Raw(r.raw) }

  /** The last response with an id. */
  function LastWith(rs: seq<Response>, id: nat): (r: Option<Response>)
    ensures r.Some? ==> r.value in rs && r.value.id == id
    ensures r.None? ==> forall i :: 0 <= i < |rs| ==> rs[i].id != id
    decreases |rs|
  {
    if rs == [] then None
    else if rs[|rs| - 1].id == id then Some(rs[|rs| - 1])
    else LastWith(rs[..|rs| - 1], id)
  }

  function Matched(rs: seq<Response>, id: nat): Result {
    match LastWith(rs, id)
    case Some(r) => ResultOf(r)
    case None => Missing(id)
  }

  /** Every id is answered by the last response that carries it, as the error if it carries one, and reported missing only when
      none does. */
  lemma {:induction false} MatchedExactly(rs: seq<Response>, id: nat, i: nat)
    ensures i < |rs| && rs[i].id == id && (forall j :: i < j < |rs| ==> rs[j].id != id) ==>
              && (rs[i].error.Some? ==> Matched(rs, id) == Failed(rs[i].error.value))
              && (rs[i].error.None? ==> Matched(rs, id) == Raw(rs[i].raw))
    ensures (forall j :: 0 <= j < |rs| ==> rs[j].id != id) ==> Matched(rs, id) == Missing(id)
    decreases |rs|
  {
    if rs != [] {
      var front := rs[..|rs| - 1];
      if rs[|rs| - 1].id != id { MatchedExactly(front, id, i); }
    }
  }

  method MatchResults(ids: seq<nat>, responses: seq<Response>) returns (out: seq<Result>)
    ensures |out| == |ids| && forall i :: 0 <= i < |ids| ==> out[i] == Matched(responses, ids[i])
  {
    var byId: map<nat, Response> := map[];
    var k := 0;
    while k < |responses|
      invariant 0 <= k <= |responses|
      invariant forall id :: id in byId <==> LastWith(responses[..k], id).Some?
      invariant forall id :: id in byId ==> LastWith(responses[..k], id) == Some(byId[id])
    {
      assert responses[..k + 1][..k] == responses[..k];
      byId := byId[responses[k].id := responses[k]];
      k := k + 1;
    }
    assert responses[..k] == responses;
    out := [];
    while |out| < |ids|
      invariant |out| <= |ids| && forall i :: 0 <= i < |out| ==> out[i] == Matched(responses, ids[i])
    {
      var id := ids[|out|];
      if id !in byId {
        out := out + [Missing(id)];
      } else if byId[id].error.Some? {
        out := out + [Failed(byId[id].error.value)];
      } else {
        out := out + [Raw(byId[id].raw)];
      }
    }
  }

  ghost predicate DistinctIds(rs: seq<Response>) { forall i, j :: 0 <= i < j < |rs| ==> rs[i].id != rs[j].id }

  lemma OnlyWith(rs: seq<Response>, r: Response)
    requires DistinctIds(rs) && r in rs
    ensures LastWith(rs, r.id) == Some(r)
  {
    var i :| 0 <= i < |rs| && rs[i] == r;
    var found := LastWith(rs, r.id);
    assert rs[i].id == r.id;
    var j :| 0 <= j < |rs| && rs[j] == found.value;
  }

  /** A server may answer a batch in any order. */
  lemma OrderOfAnswersIrrelevant(a: seq<Response>, b: seq<Response>, id: nat)
    requires DistinctIds(a) && DistinctIds(b) && forall r :: r in a <==> r in b
    ensures Matched(a, id) == Matched(b, id)
  {
    var x, y := LastWith(a, id), LastWith(b, id);
    if x.Some? {
      OnlyWith(b, x.value);
    } else if y.Some? {
      OnlyWith(a, y.value);
    }
  }

  /** The server answers what it was asked: a response carrying the id of request i answers request i. */
  ghost predicate Honest(answers: (Request, Result) -> bool, ids: seq<nat>, reqs: seq<Request>, rs: seq<Response>)
    requires |ids| == |reqs|
  {
    forall i, r :: 0 <= i < |ids| && r in rs && r.id == ids[i] ==> answers(reqs[i], ResultOf(r))
  }

  /** What a caller finds at an index: an answer to that index's request, or word that none came. */
  ghost predicate Settled(answers: (Request, Result) -> bool, q: Request, r: Result) { r.Missing? || answers(q, r) }

  lemma MatchedSettles(answers: (Request, Result) -> bool, ids: seq<nat>, reqs: seq<Request>, rs: seq<Response>, i: nat)
    requires |ids| == |reqs| && Honest(answers, ids, reqs, rs) && i < |ids|
    ensures Settled(answers, reqs[i], Matched(rs, ids[i]))
  {
    var found := LastWith(rs, ids[i]);
    if found.Some? { assert found.value in rs; }
  }

  // ----- the adaptive cap -----

  const MIN_BATCH_CAP: nat := 10
  const SIZE_BATCH_FLOOR: nat := 1
  const MAX_BATCH: nat := 100
  const CAP_RECOVERY: int := 60_000_000_000

  function ChunkSize(capacity: int, remaining: nat): (r: nat)
    requires remaining >= 1
    ensures 1 <= r <= remaining && (capacity >= 1 ==> r <= capacity)
    ensures r == remaining || r == capacity || (r == 1 && capacity < 1)
  {
    Min(Max(capacity, 1), remaining)
  }

  /** What comes back from one attempt: an error of the endpoint, throttling (which may be the one that
      opened the cooldown), or responses. */
  datatype Outcome = Broken(error: Error) | Throttled(first: bool) | Replied(responses: seq<Response>)

  predicate TooLarge(r: Result) { r.Failed? && r.error.code == RESPONSE_TOO_LARGE }

  ghost predicate AnyTooLarge(rs: seq<Result>) { exists i :: 0 <= i < |rs| && TooLarge(rs[i]) }

  function Numbered(last: nat, n: nat): (ids: seq<nat>)
    ensures |ids| == n && forall i :: 0 <= i < n ==> ids[i] == last + 1 + i
  {
    seq(n, i => last + 1 + i)
  }

  /** A server that leaves no request of a batch unanswered. */
  ghost predicate Complete(outcome: (seq<nat>, seq<Request>) -> Outcome) {
    forall ids, reqs, i :: |ids| == |reqs| && outcome(ids, reqs).Replied? && 0 <= i < |ids| ==>
      LastWith(outcome(ids, reqs).responses, ids[i]).Some?
  }

  ghost predicate AllComplete(server: nat -> (seq<nat>, seq<Request>) -> Outcome) { forall k :: Complete(server(k)) }

  lemma AllCompleteAt(server: nat -> (seq<nat>, seq<Request>) -> Outcome, k: nat)
    requires AllComplete(server)
    ensures Complete(server(k))
  {
  }

  /** A stretch settled, and when the server is complete, answered. */
  ghost predicate Filled(answers: (Request, Result) -> bool, full: bool, reqs: seq<Request>, out: seq<Result>, start: nat, end: nat) {
    && start <= end <= |out| == |reqs|
    && forall i :: start <= i < end ==> Settled(answers, reqs[i], out[i]) && (full ==> !out[i].Missing?)
  }

  /** Nothing outside a stretch changed. */
  ghost predicate Outside(was: seq<Result>, out: seq<Result>, start: nat, end: nat) {
    |was| == |out| && forall i :: 0 <= i < |out| && !(start <= i < end) ==> out[i] == was[i]
  }

  lemma FilledNone(answers: (Request, Result) -> bool, full: bool, reqs: seq<Request>, out: seq<Result>, start: nat, end: nat)
    requires start <= end <= |out| == |reqs|
    ensures Filled(answers, full, reqs, out, start, start) && Outside(out, out, start, end)
  {
  }

  lemma CopyFills(answers: (Request, Result) -> bool, full: bool, reqs: seq<Request>, was: seq<Result>, out: seq<Result>, at: nat,
                  results: seq<Result>)
    requires |was| == |out| == |reqs| && at + |results| <= |out|
    requires forall i :: 0 <= i < |results| ==> Settled(answers, reqs[at + i], results[i]) && (full ==> !results[i].Missing?)
    requires forall i :: at <= i < at + |results| ==> out[i] == results[i - at]
    requires forall i :: 0 <= i < |out| && !(at <= i < at + |results|) ==> out[i] == was[i]
    ensures Filled(answers, full, reqs, out, at, at + |results|) && Outside(was, out, at, at + |results|)
  {
    hide Settled;
    forall i | at <= i < at + |results| ensures Settled(answers, reqs[i], out[i]) && (full ==> !out[i].Missing?) {
      assert Settled(answers, reqs[at + (i - at)], results[i - at]);
    }
  }

  lemma FilledMore(answers: (Request, Result) -> bool, full: bool, reqs: seq<Request>, first: seq<Result>, was: seq<Result>,
                   out: seq<Result>, start: nat, cur: nat, next: nat, end: nat)
    requires Filled(answers, full, reqs, was, start, cur) && Outside(first, was, start, end) && cur <= next <= end
    requires Filled(answers, full, reqs, out, cur, next) && Outside(was, out, cur, next)
    ensures Filled(answers, full, reqs, out, start, next) && Outside(first, out, start, end)
  {
  }

  ghost predicate From(o: Outcome, outcome: (seq<nat>, seq<Request>) -> Outcome) { exists ids, reqs :: o == outcome(ids, reqs) }

  /** How often a stretch of attempts was throttled. */
  ghost function Throttles(log: seq<Outcome>): nat
    decreases |log|
  {
    if log == [] then 0 else Throttles(log[..|log| - 1]) + if log[|log| - 1].Throttled? then 1 else 0
  }

  ghost predicate SizeRefused(o: Outcome) {
    o.Replied? && exists r :: r in o.responses && r.error.Some? && r.error.value.code == RESPONSE_TOO_LARGE
  }

  /** Nothing was accepted: each attempt was throttled or refused for its size. */
  ghost predicate Waiting(log: seq<Outcome>) { forall k :: 0 <= k < |log| ==> log[k].Throttled? || SizeRefused(log[k]) }

  /** One chunk used up its attempts: since the last accepted one, that many were throttled and none went through. */
  ghost predicate Exhausted(log: seq<Outcome>, mark: nat, maxAttempts: nat) {
    mark <= |log| && Waiting(log[mark..]) && Throttles(log[mark..]) >= Max(maxAttempts, 1)
  }

  lemma WaitMore(log: seq<Outcome>, o: Outcome)
    requires Waiting(log)
    ensures Throttles(log + [o]) == Throttles(log) + if o.Throttled? then 1 else 0
    ensures o.Throttled? || SizeRefused(o) ==> Waiting(log + [o])
  {
    assert (log + [o])[..|log|] == log;
  }

  ghost predicate LoggedFrom(log: seq<Outcome>, server: nat -> (seq<nat>, seq<Request>) -> Outcome) {
    forall k :: 0 <= k < |log| ==> From(log[k], server(k))
  }

  ghost predicate Unbroken(log: seq<Outcome>) { forall k :: 0 <= k < |log| ==> !log[k].Broken? }

  lemma NothingLogged(server: nat -> (seq<nat>, seq<Request>) -> Outcome)
    ensures LoggedFrom([], server) && Unbroken([]) && Waiting([]) && Throttles([]) == 0
  {
  }

  lemma LogMore(log: seq<Outcome>, mark: nat, o: Outcome, server: nat -> (seq<nat>, seq<Request>) -> Outcome, ids: seq<nat>,
                reqs: seq<Request>)
    requires mark <= |log| && LoggedFrom(log, server) && Unbroken(log) && Waiting(log[mark..]) && o == server(|log|)(ids, reqs)
    ensures LoggedFrom(log + [o], server) && (!o.Broken? ==> Unbroken(log + [o]))
    ensures Throttles((log + [o])[mark..]) == Throttles(log[mark..]) + if o.Throttled? then 1 else 0
    ensures o.Throttled? || SizeRefused(o) ==> Waiting((log + [o])[mark..])
  {
    hide Throttles, SizeRefused, Waiting;
    assert (log + [o])[mark..] == log[mark..] + [o];
    WaitMore(log[mark..], o);
    assert From(o, server(|log|));
    hide From;
  }

  lemma ExhaustedHere(log: seq<Outcome>, mark: nat, maxAttempts: nat)
    requires mark <= |log| && Waiting(log[mark..]) && Throttles(log[mark..]) >= maxAttempts && Throttles(log[mark..]) >= 1
    ensures Exhausted(log, mark, maxAttempts)
  {
  }

  lemma RefusedReply(results: seq<Result>, responses: seq<Response>, last: nat)
    requires AnyTooLarge(results)
    requires forall i :: 0 <= i < |results| ==> results[i] == Matched(responses, last + 1 + i)
    ensures SizeRefused(Replied(responses))
  {
    var i :| 0 <= i < |results| && TooLarge(results[i]);
    var r := LastWith(responses, last + 1 + i).value;
    assert r in responses;
  }

  /** A minute since both the last refusal and the last step up. */
  predicate Rested(lastLimit: int, lastRecovery: int, now: int) {
    now - lastLimit >= CAP_RECOVERY && now - lastRecovery >= CAP_RECOVERY
  }

  class Adaptive {
    var batchCap: nat
    const maxBatchCap: nat
    const minBatchCap: nat
    const maxAttempts: nat
    /** What the pacer can hold at once for the calling class. */
    const paced: int
    var lastLimit: int
    var lastRecovery: int
    var nextId: nat

    ghost predicate Valid() reads this { 1 <= batchCap <= maxBatchCap <= MAX_BATCH && 1 <= minBatchCap <= maxBatchCap }

    constructor (batchSize: int, maxAttempts: nat, paced: int, now: int)
      ensures Valid() && batchCap == maxBatchCap
      ensures this.maxAttempts == maxAttempts && this.paced == paced
    {
      var size: nat := if batchSize <= 0 || batchSize > MAX_BATCH then MAX_BATCH else batchSize;
      this.batchCap, this.maxBatchCap, this.minBatchCap := size, size, Min(MIN_BATCH_CAP, size);
      this.maxAttempts, this.paced := maxAttempts, paced;
      lastLimit, lastRecovery, nextId := now, now, 0;
    }

    function Width(remaining: nat): (r: nat)
      requires remaining >= 1
      reads this
      ensures 1 <= r <= remaining
    {
      ChunkSize(Min(batchCap, paced), remaining)
    }

    /** A 429 that opened the cooldown halves the cap, down to its floor and never up; a minute without one
        doubles it back towards its start. */
    method Observe(items: nat, limited: bool, first: bool, now: int)
      requires Valid()
      modifies this`batchCap, this`lastLimit, this`lastRecovery
      ensures Valid()
      ensures limited ==> batchCap <= old(batchCap) && lastLimit == now && lastRecovery == old(lastRecovery)
      ensures limited && first && items > 1 && old(batchCap) > minBatchCap ==>
                batchCap == Max(old(batchCap) / 2, minBatchCap) < old(batchCap)
      ensures limited && !(first && items > 1 && old(batchCap) > minBatchCap) ==> batchCap == old(batchCap)
      ensures !limited ==> lastLimit == old(lastLimit)
      ensures !limited && Rested(old(lastLimit), old(lastRecovery), now) && old(batchCap) < maxBatchCap ==>
                batchCap == Min(2 * old(batchCap), maxBatchCap) > old(batchCap) && lastRecovery == now
      ensures !limited && !(Rested(old(lastLimit), old(lastRecovery), now) && old(batchCap) < maxBatchCap) ==>
                batchCap == old(batchCap) && lastRecovery == old(lastRecovery)
    {
      if limited {
        lastLimit := now;
        if first && items > 1 && batchCap > minBatchCap { batchCap := Max(batchCap / 2, minBatchCap); }
        return;
      }
      if batchCap >= maxBatchCap { return; }
      var since := lastLimit;
      if lastRecovery > since { since := lastRecovery; }
      if now - since < CAP_RECOVERY { return; }
      batchCap := Min(batchCap * 2, maxBatchCap);
      lastRecovery := now;
    }

    /** After a refusal for size the cap is below the refused width, unless that was a single item. */
    method ShrinkForSize(items: nat, now: int) returns (narrower: bool)
      requires Valid()
      modifies this`batchCap, this`lastLimit
      ensures Valid() && batchCap <= old(batchCap)
      ensures narrower <==> items > SIZE_BATCH_FLOOR
      ensures narrower ==> batchCap < items && lastLimit == now
      ensures narrower ==> batchCap == Min(old(batchCap), items / 2)
      ensures !narrower ==> batchCap == old(batchCap) && lastLimit == old(lastLimit)
    {
      if items <= SIZE_BATCH_FLOOR { return false; }
      batchCap := Min(batchCap, Max(items / 2, SIZE_BATCH_FLOOR));
      lastLimit := now;
      return true;
    }

    method Ids(n: nat) returns (ids: seq<nat>)
      modifies this`nextId
      ensures |ids| == n && nextId == old(nextId) + n
      ensures forall i :: 0 <= i < n ==> ids[i] == old(nextId) + 1 + i
    {
      ids := [];
      while |ids| < n
        invariant |ids| <= n && nextId == old(nextId) + |ids|
        invariant forall i :: 0 <= i < |ids| ==> ids[i] == old(nextId) + 1 + i
      {
        nextId := nextId + 1;
        ids := ids + [nextId];
      }
    }

    method ScanTooLarge(rs: seq<Result>) returns (b: bool)
      ensures b == AnyTooLarge(rs)
    {
      var i := 0;
      while i < |rs|
        invariant 0 <= i <= |rs| && forall k :: 0 <= k < i ==> !TooLarge(rs[k])
      {
        if TooLarge(rs[i]) { return true; }
        i := i + 1;
      }
      return false;
    }

    /** One attempt: the cap adapts to how it went. None is throttling. */
    method Attempt(ghost answers: (Request, Result) -> bool, reqs: seq<Request>, outcome: (seq<nat>, seq<Request>) -> Outcome,
                   now: int) returns (results: Option<seq<Result>>, error: Option<Error>, ghost reply: Outcome)
      requires Valid() && |reqs| >= 1
      requires HonestReply(answers, outcome)
      modifies this
      ensures Valid() && nextId == old(nextId) + |reqs|
      ensures reply == outcome(Numbered(old(nextId), |reqs|), reqs)
      ensures error == if reply.Broken? then Some(reply.error) else None
      ensures results.Some? <==> reply.Replied?
      ensures reply.Broken? ==> batchCap == old(batchCap)
      ensures reply.Throttled? ==> batchCap <= old(batchCap) && lastLimit == now
      ensures reply.Throttled? && reply.first && |reqs| > 1 && old(batchCap) > minBatchCap ==>
                batchCap == Max(old(batchCap) / 2, minBatchCap)
      ensures reply.Throttled? && !(reply.first && |reqs| > 1) ==> batchCap == old(batchCap)
      ensures reply.Replied? ==> batchCap >= old(batchCap) && lastLimit == old(lastLimit)
      ensures results.Some? ==>
                |results.value| == |reqs| && forall i :: 0 <= i < |reqs| ==>
                  results.value[i] == Matched(reply.responses, old(nextId) + 1 + i)
      ensures results.Some? && Complete(outcome) ==> forall i :: 0 <= i < |reqs| ==> !results.value[i].Missing?
      ensures results.Some? ==>
                |results.value| == |reqs| && forall i :: 0 <= i < |reqs| ==> Settled(answers, reqs[i], results.value[i])
    {
      hide Settled, Complete, HonestReply, Matched;
      var ids := Ids(|reqs|);
      assert ids == Numbered(old(nextId), |reqs|);
      reply := outcome(ids, reqs);
      match outcome(ids, reqs) {
        case Broken(e) => return None, Some(e), reply;
        case Throttled(first) =>
          Observe(|reqs|, true, first, now);
          return None, None, reply;
        case Replied(responses) =>
          Observe(|reqs|, false, false, now);
          var out := MatchResults(ids, responses);
          ReplySettles(answers, outcome, ids, reqs, out);
          return Some(out), None, reply;
      }
    }

    /** Sends reqs[start..end] into out at their own indexes. `server` decides every attempt, with any
        pattern of throttling, refusals and failures; each retry narrows the chunk or uses up an attempt. */
    method SendRange(ghost answers: (Request, Result) -> bool, reqs: seq<Request>, out: array<Result>, start: nat, end: nat,
                     server: nat -> (seq<nat>, seq<Request>) -> Outcome, clock: nat -> int)
      returns (error: Option<Error>, ghost log: seq<Outcome>)
      requires Valid() && out.Length == |reqs| && start <= end <= |reqs|
      requires forall k :: HonestReply(answers, server(k))
      modifies this, out
      ensures Valid()
      ensures error.None? ==> Filled(answers, AllComplete(server), reqs, out[..], start, end)
      ensures Outside(old(out[..]), out[..], start, end)
      ensures LoggedFrom(log, server)
      ensures error.None? ==> Unbroken(log)
      ensures error.Some? ==> log != [] && (log[|log| - 1] == Broken(error.value)
                                            || (error.value == Error(429, "throttled") && exists mark: nat :: Exhausted(log, mark, maxAttempts)))
    {
      hide From, Complete, HonestReply, Waiting, Throttles, SizeRefused, Matched, Exhausted, LoggedFrom, Unbroken, AllComplete, Filled,
        Outside;
      var cur, attempts, k := start, 0, 0;
      log := [];
      ghost var mark, full := 0, AllComplete(server);
      NothingLogged(server);
      FilledNone(answers, full, reqs, out[..], start, end);
      while cur < end
        invariant Valid() && start <= cur <= end
        invariant Filled(answers, full, reqs, out[..], start, cur) && Outside(old(out[..]), out[..], start, end)
        invariant |log| == k && LoggedFrom(log, server) && Unbroken(log)
        invariant mark <= k && Waiting(log[mark..]) && Throttles(log[mark..]) == attempts
        decreases end - cur, if cur < end then Width(end - cur) else 0, Max(maxAttempts - attempts, 0)
      {
        ghost var reply: Outcome;
        ghost var was, first, width := out[..], nextId, Width(end - cur);
        if full { AllCompleteAt(server, k); }
        var sent, limited, broken;
        sent, limited, broken, reply := SendChunk(answers, full, reqs, out, cur, end, server(k), clock(k));
        FilledMore(answers, full, reqs, old(out[..]), was, out[..], start, cur, cur + sent, end);
        LogMore(log, mark, reply, server, Numbered(first, width), reqs[cur..cur + width]);
        log := log + [reply];
        k := k + 1;
        if broken.Some? { return broken, log; }
        if limited {
          attempts := attempts + 1;
          if attempts >= maxAttempts {
            ExhaustedHere(log, mark, maxAttempts);
            return Some(Error(429, "throttled")), log;
          }
          continue;
        }
        if sent == 0 { continue; }
        cur := cur + sent;
        attempts := 0;
        mark := k;
        assert log[mark..] == [];
        NothingLogged(server);
      }
      return None, log;
    }

    /** One attempt at the next chunk: its answers copied, or nothing when it was throttled, failed, or refused for its size
        and can be asked for again narrower. */
    method SendChunk(ghost answers: (Request, Result) -> bool, ghost full: bool, reqs: seq<Request>, out: array<Result>, cur: nat,
                     end: nat, outcome: (seq<nat>, seq<Request>) -> Outcome, now: int)
      returns (sent: nat, limited: bool, error: Option<Error>, ghost reply: Outcome)
      requires Valid() && out.Length == |reqs| && cur < end <= |reqs| && HonestReply(answers, outcome)
      requires full ==> Complete(outcome)
      modifies this, out
      ensures Valid()
      ensures var n := old(Width(end - cur)); reply == outcome(Numbered(old(nextId), n), reqs[cur..cur + n])
      ensures error == (if reply.Broken? then Some(reply.error) else None) && (limited <==> reply.Throttled?)
      ensures limited ==> sent == 0 && batchCap <= old(batchCap)
      ensures reply.Replied? ==> sent == old(Width(end - cur)) || (sent == 0 && SizeRefused(reply) && Width(end - cur) < old(Width(end - cur)))
      ensures error.Some? ==> sent == 0
      ensures cur + sent <= end && Filled(answers, full, reqs, out[..], cur, cur + sent)
      ensures Outside(old(out[..]), out[..], cur, cur + sent)
    {
      hide Complete, HonestReply, SizeRefused, Matched, Settled, Filled, Outside;
      var size := Width(end - cur);
      ghost var first, was := nextId, out[..];
      FilledNone(answers, full, reqs, was, cur, cur);
      var results;
      results, error, reply := Attempt(answers, reqs[cur..cur + size], outcome, now);
      if results.None? { return 0, error.None?, error, reply; }
      var refused := ScanTooLarge(results.value);
      if refused {
        RefusedReply(results.value, reply.responses, first);
        var narrower := ShrinkForSize(size, now);
        if narrower { return 0, false, None, reply; }
      }
      Copy(answers, reqs, out, cur, results.value);
      CopyFills(answers, full, reqs, was, out[..], cur, results.value);
      sent, limited := size, false;
    }

    method Copy(ghost answers: (Request, Result) -> bool, reqs: seq<Request>, out: array<Result>, at: nat, results: seq<Result>)
      requires out.Length == |reqs| && at + |results| <= |reqs|
      requires forall i :: 0 <= i < |results| ==> Settled(answers, reqs[at + i], results[i])
      modifies out
      ensures forall i :: at <= i < at + |results| ==> Settled(answers, reqs[i], out[i]) && out[i] == results[i - at]
      ensures forall i :: 0 <= i < |reqs| && !(at <= i < at + |results|) ==> out[i] == old(out[i])
    {
      var i := 0;
      while i < |results|
        invariant 0 <= i <= |results|
        invariant forall j :: at <= j < at + i ==> out[j] == results[j - at]
        invariant forall j :: 0 <= j < |reqs| && !(at <= j < at + i) ==> out[j] == old(out[j])
      {
        out[at + i] := results[i];
        i := i + 1;
      }
    }
  }

  ghost predicate Distinct(ids: seq<nat>) { forall i, j :: 0 <= i < j < |ids| ==> ids[i] != ids[j] }

  lemma ReplySettles(answers: (Request, Result) -> bool, outcome: (seq<nat>, seq<Request>) -> Outcome, ids: seq<nat>,
                     reqs: seq<Request>, out: seq<Result>)
    requires HonestReply(answers, outcome) && |ids| == |reqs| == |out| && Distinct(ids) && outcome(ids, reqs).Replied?
    requires forall i :: 0 <= i < |ids| ==> out[i] == Matched(outcome(ids, reqs).responses, ids[i])
    ensures forall i :: 0 <= i < |reqs| ==> Settled(answers, reqs[i], out[i])
    ensures Complete(outcome) ==> forall i :: 0 <= i < |reqs| ==> !out[i].Missing?
  {
    var responses := outcome(ids, reqs).responses;
    assert Honest(answers, ids, reqs, responses);
    hide HonestReply, Settled, Honest;
    forall i | 0 <= i < |reqs|
      ensures Settled(answers, reqs[i], out[i]) && (Complete(outcome) ==> !out[i].Missing?)
    {
      MatchedSettles(answers, ids, reqs, responses, i);
    }
  }

  /** A server that answers what it was asked whenever the ids it was given are distinct. */
  ghost predicate HonestReply(answers: (Request, Result) -> bool, outcome: (seq<nat>, seq<Request>) -> Outcome) {
    forall ids, reqs :: |ids| == |reqs| && Distinct(ids) && outcome(ids, reqs).Replied? ==>
      Honest(answers, ids, reqs, outcome(ids, reqs).responses)
  }
}
