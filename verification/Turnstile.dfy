/** The pacer's turnstile (internal/nitro/pacer.go): callers pass one at a time in arrival order, and one
    that is cancelled leaves the queue or, if it was handed the turnstile meanwhile, passes it on. */
module Turnstile {
  import opened Words

  datatype Gate = Gate(held: bool, queue: seq<nat>)

  /** Who is handed the turnstile when it is released, and what is left. */
  function Released(g: Gate): Gate {
    if g.queue == [] then g.(held := false) else g.(queue := g.queue[1..])
  }

  function Handed(g: Gate): Option<nat> { if g.queue == [] then None else Some(g.queue[0]) }

  function Arrived(g: Gate, w: nat): Gate { if g.held then g.(queue := g.queue + [w]) else g.(held := true) }

  function Without(q: seq<nat>, w: nat): (r: seq<nat>)
    ensures w !in q ==> r == q
  {
    if q == [] then [] else if q[0] == w then q[1..] else [q[0]] + Without(q[1..], w)
  }

  function Abandoned(g: Gate, w: nat): Gate { if w in g.queue then g.(queue := Without(g.queue, w)) else Released(g) }

  lemma {:induction false} WithoutAt(q: seq<nat>, i: nat)
    requires i < |q| && q[i] !in q[..i]
    ensures Without(q, q[i]) == q[..i] + q[i + 1..]
    decreases i
  {
    if i > 0 {
      assert q[0] == q[..i][0];
      assert q[1..][..i - 1] == q[..i][1..];
      WithoutAt(q[1..], i - 1);
      assert q[..i] + q[i + 1..] == [q[0]] + (q[1..][..i - 1] + q[1..][i..]);
    }
  }

  class Gatekeeper {
    var held: bool
    var queue: seq<nat>

    ghost function Value(): Gate reads this { Gate(held, queue) }

    constructor ()
      ensures Value() == Gate(false, [])
    {
      held, queue := false, [];
    }

    /** The locked part of `acquire`: in at once, or at the end of the queue. */
    method Arrive(w: nat) returns (inside: bool)
      modifies this
      ensures Value() == Arrived(old(Value()), w) && inside == !old(held)
    {
      if !held {
        held := true;
        return true;
      }
      queue := queue + [w];
      return false;
    }

    method Release() returns (next: Option<nat>)
      modifies this
      ensures Value() == Released(old(Value())) && next == Handed(old(Value()))
    {
      if |queue| == 0 {
        held := false;
        return None;
      }
      next := Some(queue[0]);
      queue := queue[1..];
    }

    method Dequeue(w: nat) returns (found: bool)
      modifies this`queue
      ensures found == (w in old(queue)) && queue == Without(old(queue), w)
    {
      var i := 0;
      while i < |queue|
        invariant 0 <= i <= |queue| && queue == old(queue)
        invariant w !in queue[..i]
      {
        if queue[i] == w {
          WithoutAt(queue, i);
          queue := queue[..i] + queue[i + 1..];
          return true;
        }
        i := i + 1;
      }
      assert queue[..i] == queue;
      return false;
    }

    method Abandon(w: nat) returns (next: Option<nat>)
      modifies this
      ensures Value() == Abandoned(old(Value()), w)
      ensures next == if w in old(queue) then None else Handed(old(Value()))
    {
      var found := Dequeue(w);
      next := None;
      if !found { next := Release(); }
    }
  }

  // ----- every interleaving -----

  /** A caller is queued, handed the turnstile without having noticed, inside, done with it, or gone. */
  datatype Phase = Queued | Given | Inside | Done | Gone

  /** Callers are numbered as they arrive; `passed` are those the turnstile was given to, in order. */
  datatype State = State(gate: Gate, callers: seq<Phase>, passed: seq<nat>)

  datatype Step = Arrive | Notice(i: nat) | Leave(i: nat) | Cancel(i: nat)

  predicate Enabled(s: State, step: Step) {
    match step
    case Arrive => true
    case Notice(i) => i < |s.callers| && s.callers[i] == Given
    case Leave(i) => i < |s.callers| && s.callers[i] == Inside
    case Cancel(i) => i < |s.callers| && s.callers[i] in {Queued, Given}
  }

  /** The caller at the head, if any, is given the turnstile. */
  function PassOn(s: State): State
    requires forall i :: 0 <= i < |s.gate.queue| ==> s.gate.queue[i] < |s.callers|
  {
    match Handed(s.gate)
    case None => s.(gate := Released(s.gate))
    case Some(w) => State(Released(s.gate), s.callers[w := Given], s.passed + [w])
  }

  ghost predicate InRange(s: State) { forall i :: 0 <= i < |s.gate.queue| ==> s.gate.queue[i] < |s.callers| }

  ghost function Next(s: State, step: Step): State
    requires Enabled(s, step) && InRange(s)
  {
    match step
    case Arrive =>
      var w := |s.callers|;
      if s.gate.held then State(Arrived(s.gate, w), s.callers + [Queued], s.passed)
      else State(Arrived(s.gate, w), s.callers + [Inside], s.passed + [w])
    case Notice(i) => s.(callers := s.callers[i := Inside])
    case Leave(i) => PassOn(s.(callers := s.callers[i := Done]))
    case Cancel(i) =>
      var t := s.(callers := s.callers[i := Gone]);
      if i in s.gate.queue then t.(gate := Abandoned(s.gate, i)) else PassOn(t)
  }

  ghost predicate Ascending(q: seq<nat>) { forall i, j :: 0 <= i < j < |q| ==> q[i] < q[j] }

  predicate Holds(c: Phase) { c == Given || c == Inside }

  ghost predicate QueueOk(s: State) {
    && InRange(s)
    && Ascending(s.gate.queue)
    && (forall i :: 0 <= i < |s.callers| ==> (s.callers[i] == Queued <==> i in s.gate.queue))
  }

  ghost predicate PassedOk(s: State) {
    && Ascending(s.passed)
    && (forall k :: 0 <= k < |s.passed| ==> s.passed[k] < |s.callers| && s.callers[s.passed[k]] != Queued)
    && (forall i, k :: 0 <= i < |s.gate.queue| && 0 <= k < |s.passed| ==> s.passed[k] < s.gate.queue[i])
    && (forall i :: 0 <= i < |s.callers| && s.callers[i] in {Given, Inside, Done} ==> i in s.passed)
  }

  /** Whoever holds the turnstile is the last it was given to, and while it is held somebody does. */
  ghost predicate OwnerOk(s: State) {
    && (forall i :: 0 <= i < |s.callers| && Holds(s.callers[i]) ==> s.gate.held && s.passed != [] && i == s.passed[|s.passed| - 1])
    && (s.gate.held ==> s.passed != [] && s.passed[|s.passed| - 1] < |s.callers| && Holds(s.callers[s.passed[|s.passed| - 1]]))
    && (!s.gate.held ==> s.gate.queue == [])
  }

  ghost predicate Inv(s: State) { QueueOk(s) && PassedOk(s) && OwnerOk(s) }

  lemma CutOne(q: seq<nat>, i: nat)
    requires Ascending(q) && i < |q|
    ensures Ascending(q[..i] + q[i + 1..])
    ensures q[i] !in q[..i] && q[i] !in q[..i] + q[i + 1..]
    ensures forall x :: x in q[..i] + q[i + 1..] <==> x in q && x != q[i]
  {
    var r := q[..i] + q[i + 1..];
    assert forall k :: 0 <= k < |r| ==> r[k] == if k < i then q[k] else q[k + 1];
    forall x | x in q && x != q[i] ensures x in r {
      var k :| 0 <= k < |q| && q[k] == x;
      assert x == if k < i then r[k] else r[k - 1];
    }
  }

  lemma WithoutFacts(q: seq<nat>, w: nat)
    requires Ascending(q) && w in q
    ensures Ascending(Without(q, w)) && forall x :: x in Without(q, w) <==> x in q && x != w
  {
    hide Without, Ascending;
    var i :| 0 <= i < |q| && q[i] == w;
    CutOne(q, i);
    WithoutAt(q, i);
  }

  /** Between the owner's end and the next caller's start: nobody holds it. */
  ghost predicate Freed(s: State) {
    QueueOk(s) && PassedOk(s) && s.gate.held && forall i :: 0 <= i < |s.callers| ==> !Holds(s.callers[i])
  }

  lemma PassOnKeeps(s: State)
    requires Freed(s)
    ensures Inv(PassOn(s))
  {
    var q := s.gate.queue;
    if q != [] {
      var t := PassOn(s);
      assert t.callers == s.callers[q[0] := Given] && t.passed == s.passed + [q[0]] && t.gate.queue == q[1..];
      assert forall x :: x in q[1..] <==> x in q && x != q[0];
      assert t.passed[|t.passed| - 1] == q[0];
    }
  }

  lemma FreedBy(s: State, i: nat, c: Phase)
    requires Inv(s) && i < |s.callers| && Holds(s.callers[i]) && c in {Done, Gone}
    ensures Freed(s.(callers := s.callers[i := c]))
  {
    var t := s.(callers := s.callers[i := c]);
    assert i in s.passed;
  }

  lemma QueueUp(s: State)
    requires Inv(s) && s.gate.held
    ensures Inv(State(Gate(true, s.gate.queue + [|s.callers|]), s.callers + [Queued], s.passed))
  {
    var t := State(Gate(true, s.gate.queue + [|s.callers|]), s.callers + [Queued], s.passed);
    assert forall i :: 0 <= i < |s.callers| ==> t.callers[i] == s.callers[i];
    assert QueueOk(t) by { hide PassedOk, OwnerOk; }
    assert PassedOk(t) by { hide OwnerOk; }
    assert OwnerOk(t) by { hide PassedOk, QueueOk; }
  }

  lemma WalkIn(s: State)
    requires Inv(s) && !s.gate.held
    ensures Inv(State(Gate(true, []), s.callers + [Inside], s.passed + [|s.callers|]))
  {
    var t := State(Gate(true, []), s.callers + [Inside], s.passed + [|s.callers|]);
    assert forall i :: 0 <= i < |s.callers| ==> t.callers[i] == s.callers[i];
    assert QueueOk(t) by { hide PassedOk; }
    assert PassedOk(t) by { hide OwnerOk; }
    assert t.passed[|t.passed| - 1] == |s.callers|;
    assert OwnerOk(t) by { hide PassedOk, QueueOk; }
  }

  lemma ArriveKeeps(s: State)
    requires Inv(s)
    ensures Inv(Next(s, Arrive))
  {
    if s.gate.held { QueueUp(s); } else {
      assert s.gate.queue == [];
      WalkIn(s);
    }
  }

  lemma NoticeKeeps(s: State, i: nat)
    requires Inv(s) && Enabled(s, Notice(i))
    ensures Inv(Next(s, Notice(i)))
  {
  }

  lemma QueuedLeaves(s: State, i: nat)
    requires Inv(s) && i in s.gate.queue
    ensures i < |s.callers|
    ensures Inv(State(Abandoned(s.gate, i), s.callers[i := Gone], s.passed))
  {
    hide Without, Ascending, OwnerOk, PassedOk;
    var k :| 0 <= k < |s.gate.queue| && s.gate.queue[k] == i;
    WithoutFacts(s.gate.queue, i);
    ShorterQueue(s, i, Without(s.gate.queue, i));
  }

  lemma ShorterQueue(s: State, i: nat, q: seq<nat>)
    requires Inv(s) && i in s.gate.queue && i < |s.callers|
    requires Ascending(q) && forall x :: x in q <==> x in s.gate.queue && x != i
    ensures Inv(State(s.gate.(queue := q), s.callers[i := Gone], s.passed))
  {
    var t := State(s.gate.(queue := q), s.callers[i := Gone], s.passed);
    assert forall j :: 0 <= j < |q| ==> q[j] in s.gate.queue;
    assert s.callers[i] == Queued;
    ShorterPassed(s, i, t);
  }

  lemma ShorterPassed(s: State, i: nat, t: State)
    requires QueueOk(s) && PassedOk(s) && i < |s.callers| && s.callers[i] == Queued && t.passed == s.passed
    requires t.callers == s.callers[i := Gone] && forall j :: 0 <= j < |t.gate.queue| ==> t.gate.queue[j] in s.gate.queue
    ensures PassedOk(t)
  {
    hide Ascending;
  }

  lemma StepKeeps(s: State, step: Step)
    requires Inv(s) && Enabled(s, step)
    ensures Inv(Next(s, step))
  {
    hide PassedOk, OwnerOk, PassOn, Ascending;
    match step
    case Arrive => ArriveKeeps(s);
    case Notice(i) => NoticeKeeps(s, i);
    case Leave(i) =>
      FreedBy(s, i, Done);
      PassOnKeeps(s.(callers := s.callers[i := Done]));
    case Cancel(i) =>
      if i in s.gate.queue {
        QueuedLeaves(s, i);
      } else {
        FreedBy(s, i, Gone);
        PassOnKeeps(s.(callers := s.callers[i := Gone]));
      }
  }

  ghost predicate Legal(s: State, run: seq<Step>)
    decreases |run|
  {
    run == [] || (InRange(s) && Enabled(s, run[0]) && Legal(Next(s, run[0]), run[1..]))
  }

  ghost function After(s: State, run: seq<Step>): State
    requires Legal(s, run)
    decreases |run|
  {
    if run == [] then s else After(Next(s, run[0]), run[1..])
  }

  const OPEN := State(Gate(false, []), [], [])

  lemma {:induction false} RunKeeps(s: State, run: seq<Step>)
    requires Inv(s) && Legal(s, run)
    ensures Inv(After(s, run))
    decreases |run|
  {
    hide Inv, Next;
    if run != [] {
      StepKeeps(s, run[0]);
      RunKeeps(Next(s, run[0]), run[1..]);
    }
  }

  /** In every reachable state at most one caller holds the turnstile; it is held exactly when one does, so
      no hand-off is ever lost; and it is open only with nobody queued. */
  lemma OneOwner(run: seq<Step>)
    requires Legal(OPEN, run)
    ensures var s := After(OPEN, run);
            && (forall i, j :: 0 <= i < |s.callers| && 0 <= j < |s.callers| && Holds(s.callers[i]) && Holds(s.callers[j]) ==> i == j)
            && (s.gate.held <==> exists i :: 0 <= i < |s.callers| && Holds(s.callers[i]))
            && (!s.gate.held ==> s.gate.queue == [])
  {
    RunKeeps(OPEN, run);
  }

  /** First come, first served: callers pass in order of arrival, and one overtaken by a later caller
      had abandoned. */
  lemma ArrivalOrder(run: seq<Step>)
    requires Legal(OPEN, run)
    ensures var s := After(OPEN, run);
            && Ascending(s.passed)
            && (forall i, k :: 0 <= i < |s.callers| && 0 <= k < |s.passed| && i < s.passed[k] && i !in s.passed ==>
                 s.callers[i] == Gone)
            && (forall i, j :: 0 <= i < j < |s.callers| && s.callers[i] == Queued ==> j !in s.passed)
  {
    RunKeeps(OPEN, run);
    hide After, Legal, Next, OwnerOk, QueueOk, PassedOk;
    InOrder(After(OPEN, run));
  }

  lemma InOrder(s: State)
    requires QueueOk(s) && PassedOk(s)
    ensures Ascending(s.passed)
    ensures forall i, k :: 0 <= i < |s.callers| && 0 <= k < |s.passed| && i < s.passed[k] && i !in s.passed ==>
              s.callers[i] == Gone
    ensures forall i, j :: 0 <= i < j < |s.callers| && s.callers[i] == Queued ==> j !in s.passed
  {
    hide Ascending;
    forall i, k | 0 <= i < |s.callers| && 0 <= k < |s.passed| && s.callers[i] == Queued ensures s.passed[k] < i {
      assert i in s.gate.queue;
    }
  }
}
