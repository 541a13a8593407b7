/** Replaying headers and moving each prediction onto the block it prices: replayForward,
    shiftPredictions and the encoded carry of internal/collector/tick.go, and the law that lets the
    backfill and the gap filler cut a contiguous run into batches. */
module Forward {
  import opened Words
  import opened Pricer
  import opened Receipts
  import Decimal

  // ----- replay -----

  /** What the recorded history says about a block: changes in force from its start, owner actions
      inside it, and the backlogs sampled at its end. */
  datatype History = History(atStart: u64 -> seq<Change>, inBlock: u64 -> seq<Boundary>, sampled: u64 -> Option<seq<u64>>)

  /** A stored block row, the pricing group last. Fields copied from the header are left out. */
  datatype Row = Row(number: u64, timestamp: u64, gasUsed: u64, backlogs: seq<u64>, minBaseFee: nat, anchored: bool,
                     predicted: Option<int>, exponent: i64, bips: seq<i64>)

  function Start(s: State, h: Header, y: History): State { ApplyChanges(s, y.atStart(h.number)) }

  function Spent(s: State, prev: u64, h: Header, y: History): State {
    ActionGas(StepState(Start(s, h, y), Elapsed(prev, h.timestamp)), h.ComputeGas(), Resolve(h, y.inBlock(h.number)), 0)
  }

  function After(s: State, prev: u64, h: Header, y: History): State {
    match y.sampled(h.number)
    case Some(backlogs) => BacklogsSet(Spent(s, prev, h, y), backlogs)
    case None => Spent(s, prev, h, y)
  }

  /** The row of a block straight after its replay: the group is the one its own step computed. */
  function RowOf(s: State, prev: u64, h: Header, y: History): Row {
    var priced := StepPrice(Start(s, h, y), Elapsed(prev, h.timestamp));
    Row(h.number, h.timestamp, h.gasUsed, After(s, prev, h, y).Backlogs(), Start(s, h, y).minBaseFee,
        y.sampled(h.number).Some?, Some(priced.fee), priced.exponent, priced.per)
  }

  function ForwardState(s: State, prev: u64, hs: seq<Header>, y: History): State
    decreases |hs|
  {
    if hs == [] then s else ForwardState(After(s, prev, hs[0], y), hs[0].timestamp, hs[1..], y)
  }

  function ForwardRows(s: State, prev: u64, hs: seq<Header>, y: History): (r: seq<Row>)
    ensures |r| == |hs|
    ensures forall i :: 0 <= i < |hs| ==> r[i].number == hs[i].number && r[i].predicted.Some?
    decreases |hs|
  {
    if hs == [] then []
    else [RowOf(s, prev, hs[0], y)] + ForwardRows(After(s, prev, hs[0], y), hs[0].timestamp, hs[1..], y)
  }

  function LastTimestamp(prev: u64, hs: seq<Header>): u64 {
    if hs == [] then prev else hs[|hs| - 1].timestamp
  }

  method ReplayHeader(p: Pricer, prev: u64, h: Header, y: History) returns (row: Row)
    modifies p
    ensures p.Value() == After(old(p.Value()), prev, h, y)
    ensures row == RowOf(old(p.Value()), prev, h, y)
  {
    hide ApplyChanges, StepState, StepPrice, ActionGas, BacklogsSet;
    ApplyPricingChanges(p, y.atStart(h.number));
    var fee := p.minBaseFee;
    var dt: u64 := 0;
    if prev != 0 && h.timestamp > prev { dt := h.timestamp - prev; }
    var priced := p.Step(dt);
    ApplyActionGas(p, h.ComputeGas(), Resolve(h, y.inBlock(h.number)));
    var sampled := y.sampled(h.number);
    if sampled.Some? { p.SetBacklogs(sampled.value); }
    row := Row(h.number, h.timestamp, h.gasUsed, State(p.constraints, p.legacy, p.minBaseFee).Backlogs(), fee,
               sampled.Some?, Some(priced.fee), priced.exponent, priced.per);
  }

  /** replayForward: the pricer is mutated, so a later batch continues from it. */
  method ReplayForward(p: Pricer, prevTs: u64, headers: seq<Header>, y: History) returns (rows: seq<Row>)
    modifies p
    ensures p.Value() == ForwardState(old(p.Value()), prevTs, headers, y)
    ensures rows == ForwardRows(old(p.Value()), prevTs, headers, y)
  {
    hide After, RowOf, ForwardState, ForwardRows;
    rows := [];
    var prev := prevTs;
    var i := 0;
    ghost var final, all := ForwardState(p.Value(), prev, headers, y), ForwardRows(p.Value(), prev, headers, y);
    assert headers[0..] == headers;
    while i < |headers|
      invariant i <= |headers|
      invariant ForwardState(p.Value(), prev, headers[i..], y) == final
      invariant rows + ForwardRows(p.Value(), prev, headers[i..], y) == all
    {
      Unroll(p.Value(), prev, headers, y, i);
      var row := ReplayHeader(p, prev, headers[i], y);
      prev := headers[i].timestamp;
      rows := rows + [row];
      i := i + 1;
    }
    NothingLeft(p.Value(), prev, headers, y);
  }

  lemma Unroll(s: State, prev: u64, hs: seq<Header>, y: History, i: nat)
    requires i < |hs|
    ensures ForwardState(s, prev, hs[i..], y) == ForwardState(After(s, prev, hs[i], y), hs[i].timestamp, hs[i + 1..], y)
    ensures ForwardRows(s, prev, hs[i..], y)
         == [RowOf(s, prev, hs[i], y)] + ForwardRows(After(s, prev, hs[i], y), hs[i].timestamp, hs[i + 1..], y)
  {
    hide After, RowOf;
    assert hs[i..][0] == hs[i] && hs[i..][1..] == hs[i + 1..];
  }

  lemma NothingLeft(s: State, prev: u64, hs: seq<Header>, y: History)
    ensures ForwardState(s, prev, hs[|hs|..], y) == s && ForwardRows(s, prev, hs[|hs|..], y) == []
  {
  }

  /** The replay of pricer.Replay, block by block: headers as blocks of compute gas, sampled backlogs as anchors. */
  function BlockOf(h: Header): Block { Block(h.number, h.timestamp, h.ComputeGas()) }

  function BlocksOf(hs: seq<Header>): (r: seq<Block>)
    ensures |r| == |hs| && forall i :: 0 <= i < |hs| ==> r[i] == BlockOf(hs[i])
  {
    seq(|hs|, i requires 0 <= i < |hs| => BlockOf(hs[i]))
  }

  /** The rows hold what the replay's results hold. */
  ghost predicate Tells(r: Row, o: Outcome, h: Header) {
    && r.number == o.number == h.number && r.timestamp == h.timestamp && r.gasUsed == h.gasUsed
    && r.backlogs == o.backlogs && r.anchored == o.anchored
    && r.predicted == Some(o.priced.fee) && r.exponent == o.priced.exponent && r.bips == o.priced.per
  }

  lemma OneForward(s: State, prev: u64, h: Header, y: History)
    requires y.atStart(h.number) == [] && y.inBlock(h.number) == []
    ensures After(s, prev, h, y) == AfterBlock(s, prev, BlockOf(h), y.sampled)
    ensures Tells(RowOf(s, prev, h, y), OutcomeOf(s, prev, BlockOf(h), y.sampled), h)
    ensures RowOf(s, prev, h, y).minBaseFee == s.minBaseFee
  {
    hide StepState, StepPrice, GasAdded, BacklogsSet, State.Backlogs;
    assert Resolve(h, []) == [];
    assert Spent(s, prev, h, y) == GasAdded(StepState(s, Elapsed(prev, h.timestamp)), WrapU64(h.ComputeGas() - 0));
  }

  /** Without recorded changes or owner actions, replaying headers forward is the pricer's replay of their compute gas: the
      same states, and rows that hold its results. */
  lemma {:induction false} ForwardIsReplay(s: State, prev: u64, hs: seq<Header>, y: History)
    requires forall n: u64 :: y.atStart(n) == [] && y.inBlock(n) == []
    ensures ForwardState(s, prev, hs, y) == StateAfter(s, prev, BlocksOf(hs), y.sampled)
    ensures forall i :: 0 <= i < |hs| ==> Tells(ForwardRows(s, prev, hs, y)[i], Outcomes(s, prev, BlocksOf(hs), y.sampled)[i], hs[i])
    decreases |hs|
  {
    hide After, RowOf, AfterBlock, OutcomeOf, Tells;
    if hs != [] {
      OneForward(s, prev, hs[0], y);
      assert BlocksOf(hs)[1..] == BlocksOf(hs[1..]);
      ForwardIsReplay(After(s, prev, hs[0], y), hs[0].timestamp, hs[1..], y);
    }
  }

  /** Changes in force from a block's start are applied before anything else is done with it. */
  lemma ChangesFirst(s: State, prev: u64, h: Header, y: History, z: History)
    requires z.atStart(h.number) == [] && z.inBlock(h.number) == y.inBlock(h.number) && z.sampled(h.number) == y.sampled(h.number)
    ensures After(s, prev, h, y) == After(ApplyChanges(s, y.atStart(h.number)), prev, h, z)
    ensures RowOf(s, prev, h, y) == RowOf(ApplyChanges(s, y.atStart(h.number)), prev, h, z)
  {
    hide StepState, StepPrice, GasAdded, BacklogsSet, State.Backlogs, ActionGas, Resolve;
  }

  /** A block with owner actions whose receipts were accepted ends as if each transaction's compute gas were added in turn,
      each action applied just before its own transaction. */
  lemma ActionsInPlace(s: State, prev: u64, h: Header, y: History, rs: seq<Receipt>, t: Target)
    requires JoinedWith(h, rs, t) && Ordered(y.inBlock(h.number), 0, |rs|)
    requires y.atStart(h.number) == [] && y.sampled(h.number).None?
    ensures After(s, prev, h, y) == TxByTx(StepState(s, Elapsed(prev, h.timestamp)), ComputeGases(rs), y.inBlock(h.number), 0)
  {
    hide StepState, TxByTx, ActionGas, Resolve, Ordered, JoinedWith, ComputeGases;
    BlockGasSplit(StepState(s, Elapsed(prev, h.timestamp)), h, rs, t, y.inBlock(h.number));
  }

  /** A sampled block holds the sampled backlogs afterwards, in as many slots as there are of both, and what the replay
      reached in the rest. */
  lemma SampledIsHeld(s: State, prev: u64, h: Header, y: History, i: nat)
    requires y.sampled(h.number).Some?
    requires i < |Spent(s, prev, h, y).Backlogs()|
    ensures var after, sample := After(s, prev, h, y).Backlogs(), y.sampled(h.number).value;
            && |after| == |Spent(s, prev, h, y).Backlogs()|
            && after[i] == (if i < |sample| then sample[i] else Spent(s, prev, h, y).Backlogs()[i])
            && RowOf(s, prev, h, y).backlogs == after && RowOf(s, prev, h, y).anchored
  {
    hide Spent;
  }

  // ----- shifting predictions -----

  /** What the pricer computed while replaying one block: the fee of the next one. */
  datatype Prediction = Unknown | Known(fee: int, exponent: i64, bips: seq<i64>)

  function GroupOf(r: Row): Prediction {
    if r.predicted.Some? then Known(r.predicted.value, r.exponent, r.bips) else Unknown
  }

  function WithGroup(r: Row, p: Prediction): Row {
    match p
    case Unknown => r.(predicted := None, exponent := 0, bips := [])
    case Known(fee, exponent, bips) => r.(predicted := Some(fee), exponent := exponent, bips := bips)
  }

  /** The group that prices row i: its parent's, when the parent is the row before it or the carried
      block; none after a break in numbering. */
  function Incoming(rows: seq<Row>, carry: Prediction, i: nat): Prediction
    requires i < |rows|
  {
    if i == 0 then carry
    else if rows[i].number == WrapU64(rows[i - 1].number + 1) then GroupOf(rows[i - 1])
    else Unknown
  }

  function Shift(rows: seq<Row>, carry: Prediction): (r: seq<Row>)
    ensures |r| == |rows|
    ensures forall i :: 0 <= i < |rows| ==> r[i] == WithGroup(rows[i], Incoming(rows, carry, i))
  {
    seq(|rows|, i requires 0 <= i < |rows| => WithGroup(rows[i], Incoming(rows, carry, i)))
  }

  function Outgoing(rows: seq<Row>, carry: Prediction): Prediction {
    if rows == [] then carry else GroupOf(rows[|rows| - 1])
  }

  /** shiftPredictions, in place. */
  method ShiftPredictions(rows: array<Row>, carry: Prediction) returns (next: Prediction)
    modifies rows
    ensures rows[..] == Shift(old(rows[..]), carry)
    ensures next == Outgoing(old(rows[..]), carry)
  {
    hide WithGroup, GroupOf, Shift, Incoming;
    next := carry;
    var prev: u64 := 0;
    var i := 0;
    ghost var was := rows[..];
    ghost var shifted := Shift(was, carry);
    while i < rows.Length
      invariant i <= rows.Length
      invariant i > 0 ==> prev == was[i - 1].number
      invariant next == if i > 0 then GroupOf(was[i - 1]) else carry
      invariant forall j :: 0 <= j < i ==> rows[j] == shifted[j]
      invariant forall j :: i <= j < |was| ==> rows[j] == was[j]
    {
      IncomingHere(was, carry, i);
      if i > 0 && rows[i].number != WrapU64(prev + 1) { next := Unknown; }
      prev := rows[i].number;
      var cur, row := Regroup(rows[i], next);
      rows[i] := row;
      next := cur;
      i := i + 1;
    }
    assert rows[..] == shifted;
  }

  lemma IncomingHere(rows: seq<Row>, carry: Prediction, i: nat)
    requires i < |rows|
    ensures i == 0 ==> Incoming(rows, carry, i) == carry
    ensures i > 0 ==> (Incoming(rows, carry, i)
                   == if rows[i].number == WrapU64(rows[i - 1].number + 1) then GroupOf(rows[i - 1]) else Unknown)
  {
  }

  /** Reads a row's own group and writes the incoming one over it. */
  method Regroup(r: Row, next: Prediction) returns (cur: Prediction, row: Row)
    ensures cur == GroupOf(r) && row == WithGroup(r, next)
  {
    cur := if r.predicted.Some? then Known(r.predicted.value, r.exponent, r.bips) else Unknown;
    row := r.(predicted := None, exponent := 0, bips := []);
    if next.Known? {
      row := row.(predicted := Some(next.fee), exponent := next.exponent, bips := next.bips);
    }
  }

  // ----- the carry in a checkpoint -----

  datatype Checkpoint = Checkpoint(fee: string, exponent: i64, bips: seq<i64>)

  function Encode(p: Prediction): Checkpoint {
    match p
    case Unknown => Checkpoint("", 0, [])
    case Known(fee, exponent, bips) => Checkpoint(Decimal.Text(fee), exponent, bips)
  }

  /** An unparsable fee is treated as absent. */
  function Decode(c: Checkpoint): Prediction {
    match Decimal.Parse(c.fee)
    case None => Unknown
    case Some(v) => Known(v, c.exponent, c.bips)
  }

  lemma CarryRoundTrip(p: Prediction)
    ensures Decode(Encode(p)) == p
  {
    if p.Known? { Decimal.ParseText(p.fee); }
  }

  // ----- batching -----

  /** Everything a resumed run continues from. */
  datatype Cursor = Cursor(state: State, prevTs: u64, pending: Checkpoint)

  function BatchRows(c: Cursor, hs: seq<Header>, y: History): (r: seq<Row>)
    ensures |r| == |hs|
  {
    Shift(ForwardRows(c.state, c.prevTs, hs, y), Decode(c.pending))
  }

  function BatchCursor(c: Cursor, hs: seq<Header>, y: History): Cursor {
    Cursor(ForwardState(c.state, c.prevTs, hs, y), LastTimestamp(c.prevTs, hs),
           Encode(Outgoing(ForwardRows(c.state, c.prevTs, hs, y), Decode(c.pending))))
  }

  function RunRows(c: Cursor, batches: seq<seq<Header>>, y: History): seq<Row>
    decreases |batches|
  {
    if batches == [] then [] else BatchRows(c, batches[0], y) + RunRows(BatchCursor(c, batches[0], y), batches[1..], y)
  }

  function RunCursor(c: Cursor, batches: seq<seq<Header>>, y: History): Cursor
    decreases |batches|
  {
    if batches == [] then c else RunCursor(BatchCursor(c, batches[0], y), batches[1..], y)
  }

  function Flatten(batches: seq<seq<Header>>): seq<Header> {
    if batches == [] then [] else batches[0] + Flatten(batches[1..])
  }

  /** Block numbers rise by one; what verifyChain checks of a fetched run. */
  ghost predicate Contiguous(hs: seq<Header>) {
    forall i :: 0 < i < |hs| ==> hs[i].number == WrapU64(hs[i - 1].number + 1)
  }

  lemma {:induction false} ForwardSplit(s: State, prev: u64, xs: seq<Header>, ys: seq<Header>, y: History)
    ensures ForwardState(s, prev, xs + ys, y) == ForwardState(ForwardState(s, prev, xs, y), LastTimestamp(prev, xs), ys, y)
    ensures ForwardRows(s, prev, xs + ys, y)
         == ForwardRows(s, prev, xs, y) + ForwardRows(ForwardState(s, prev, xs, y), LastTimestamp(prev, xs), ys, y)
    decreases |xs|
  {
    hide After, RowOf;
    if xs == [] {
      assert xs + ys == ys;
    } else {
      assert (xs + ys)[0] == xs[0] && (xs + ys)[1..] == xs[1..] + ys;
      ForwardSplit(After(s, prev, xs[0], y), xs[0].timestamp, xs[1..], ys, y);
      assert LastTimestamp(xs[0].timestamp, xs[1..]) == LastTimestamp(prev, xs);
    }
  }

  lemma IncomingSplit(xs: seq<Row>, ys: seq<Row>, carry: Prediction, i: nat)
    requires xs != [] && ys != [] ==> ys[0].number == WrapU64(xs[|xs| - 1].number + 1)
    requires i < |xs + ys|
    ensures i < |xs| ==> Incoming(xs + ys, carry, i) == Incoming(xs, carry, i)
    ensures i >= |xs| ==> Incoming(xs + ys, carry, i) == Incoming(ys, Outgoing(xs, carry), i - |xs|)
  {
    hide GroupOf;
    var all := xs + ys;
    assert forall j :: 0 <= j < |ys| ==> all[|xs| + j] == ys[j];
    if i > |xs| { assert all[i - 1] == ys[i - |xs| - 1]; }
  }

  /** Shifting two linked stretches with the carry between them is shifting the whole. */
  lemma ShiftSplit(xs: seq<Row>, ys: seq<Row>, carry: Prediction)
    requires xs != [] && ys != [] ==> ys[0].number == WrapU64(xs[|xs| - 1].number + 1)
    ensures Shift(xs + ys, carry) == Shift(xs, carry) + Shift(ys, Outgoing(xs, carry))
    ensures Outgoing(xs + ys, carry) == Outgoing(ys, Outgoing(xs, carry))
  {
    hide WithGroup, GroupOf, Incoming, Shift;
    var all, parts := Shift(xs + ys, carry), Shift(xs, carry) + Shift(ys, Outgoing(xs, carry));
    forall i | 0 <= i < |xs + ys| ensures all[i] == parts[i] {
      IncomingSplit(xs, ys, carry, i);
    }
  }

  lemma BatchSplit(c: Cursor, xs: seq<Header>, ys: seq<Header>, y: History)
    requires Contiguous(xs + ys)
    ensures BatchRows(c, xs + ys, y) == BatchRows(c, xs, y) + BatchRows(BatchCursor(c, xs, y), ys, y)
    ensures BatchCursor(c, xs + ys, y) == BatchCursor(BatchCursor(c, xs, y), ys, y)
  {
    hide ForwardState, ForwardRows, Shift, Encode, Decode, Outgoing, LastTimestamp;
    var c' := BatchCursor(c, xs, y);
    var r, r' := ForwardRows(c.state, c.prevTs, xs, y), ForwardRows(c'.state, c'.prevTs, ys, y);
    ForwardSplit(c.state, c.prevTs, xs, ys, y);
    LastOfTwo(c.prevTs, xs, ys);
    CarryRoundTrip(Outgoing(r, Decode(c.pending)));
    if xs != [] && ys != [] {
      assert (xs + ys)[|xs|] == ys[0] && (xs + ys)[|xs| - 1] == xs[|xs| - 1];
    }
    ShiftSplit(r, r', Decode(c.pending));
  }

  lemma LastOfTwo(prev: u64, xs: seq<Header>, ys: seq<Header>)
    ensures LastTimestamp(prev, xs + ys) == LastTimestamp(LastTimestamp(prev, xs), ys)
  {
  }

  /** Any batching of a contiguous run, carrying state, last timestamp and the encoded pending
      prediction, writes the rows of one pass and ends in a cursor that continues the same way. */
  lemma {:induction false} BatchingIsOnePass(c: Cursor, batches: seq<seq<Header>>, y: History)
    requires Contiguous(Flatten(batches))
    ensures RunRows(c, batches, y) == BatchRows(c, Flatten(batches), y)
    ensures batches != [] ==> RunCursor(c, batches, y) == BatchCursor(c, Flatten(batches), y)
    decreases |batches|
  {
    hide BatchRows, BatchCursor;
    if batches == [] {
      EmptyBatch(c, y);
    } else {
      var rest := Flatten(batches[1..]);
      forall i | 0 < i < |rest| ensures rest[i].number == WrapU64(rest[i - 1].number + 1) {
        var all := Flatten(batches);
        assert all[|batches[0]| + i] == rest[i] && all[|batches[0]| + i - 1] == rest[i - 1];
      }
      BatchSplit(c, batches[0], rest, y);
      BatchingIsOnePass(BatchCursor(c, batches[0], y), batches[1..], y);
      if |batches| == 1 {
        assert batches[0] + rest == batches[0];
      }
    }
  }

  lemma EmptyBatch(c: Cursor, y: History)
    ensures BatchRows(c, [], y) == []
  {
  }

  /** A block carries exactly what its parent's step computed when the parent was replayed just before
      it, and nothing after a break; the first block of a run carries what the cursor held. */
  lemma PredictionIsParents(c: Cursor, hs: seq<Header>, y: History, i: nat)
    requires i < |hs|
    ensures i == 0 ==> GroupOf(BatchRows(c, hs, y)[i]) == Decode(c.pending)
    ensures i > 0 && hs[i].number == WrapU64(hs[i - 1].number + 1) ==>
              GroupOf(BatchRows(c, hs, y)[i]) == GroupOf(ForwardRows(c.state, c.prevTs, hs, y)[i - 1])
    ensures i > 0 && hs[i].number != WrapU64(hs[i - 1].number + 1) ==> GroupOf(BatchRows(c, hs, y)[i]) == Unknown
  {
    hide ForwardState, ForwardRows, Encode, Decode, RowOf, After, Shift;
    var raw := ForwardRows(c.state, c.prevTs, hs, y);
    Regrouped(raw[i], Incoming(raw, Decode(c.pending), i));
  }

  lemma Regrouped(r: Row, p: Prediction)
    ensures GroupOf(WithGroup(r, p)) == p
  {
  }
}
