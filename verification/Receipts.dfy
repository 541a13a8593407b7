/** Receipt sets and in-block owner actions: parseReceipts of internal/nitro/types.go turns a block's
    receipts into its poster gas and the compute gas before each transaction, and applyActionGas of
    internal/collector/actions.go splits the block's gas around the owner actions inside it. */
module Receipts {
  import opened Words
  import opened Pricer

  // ----- parsing -----

  /** A JSON quantity field: missing or empty, unreadable as a uint64, or read. */
  datatype Quantity = Absent | Unreadable | Quantity(value: u64)

  datatype Receipt = Receipt(blockHash: string, blockNumber: Quantity, txHash: string, txIndex: Quantity,
                             gasUsed: Quantity, cumulative: Quantity, gasUsedForL1: Quantity)

  /** The block a receipt set has to belong to and the totals it has to reproduce. */
  datatype Target = Target(number: u64, hash: string, txCount: nat, gasUsed: u64,
                           txHashes: seq<string>, hashesKnown: bool)

  function LowerChar(c: char): char { if 'A' <= c <= 'Z' then c - 'A' + 'a' else c }

  predicate EqualFold(a: string, b: string) {
    |a| == |b| && forall i :: 0 <= i < |a| ==> LowerChar(a[i]) == LowerChar(b[i])
  }

  /** The receipt names this block and this transaction, and its three gas fields are readable. */
  predicate Belongs(r: Receipt, t: Target, i: nat) {
    && r.blockHash != "" && EqualFold(r.blockHash, t.hash)
    && r.blockNumber == Quantity(t.number)
    && (t.hashesKnown ==> i < |t.txHashes| && r.txHash != "" && EqualFold(r.txHash, t.txHashes[i]))
    && r.txIndex.Quantity? && r.txIndex.value == i
    && r.gasUsed.Quantity? && r.cumulative.Quantity? && r.gasUsedForL1.Quantity?
    && r.gasUsedForL1.value <= r.gasUsed.value
  }

  function GasOf(r: Receipt): u64 { if r.gasUsed.Quantity? then r.gasUsed.value else 0 }
  function PosterOf(r: Receipt): u64 { if r.gasUsedForL1.Quantity? then r.gasUsedForL1.value else 0 }

  /** Totals over the first i receipts. */
  function SumGas(rs: seq<Receipt>, i: nat): nat
    requires i <= |rs|
  {
    if i == 0 then 0 else SumGas(rs, i - 1) + GasOf(rs[i - 1])
  }

  function SumPoster(rs: seq<Receipt>, i: nat): nat
    requires i <= |rs|
  {
    if i == 0 then 0 else SumPoster(rs, i - 1) + PosterOf(rs[i - 1])
  }

  /** What an acceptable receipt set is, without the running totals the parser keeps: every receipt
      belongs, every cumulative figure is the exact sum so far, and the sums meet the header. */
  ghost predicate Acceptable(rs: seq<Receipt>, t: Target) {
    && |rs| == t.txCount
    && SoundUpTo(rs, t, |rs|)
    && SumGas(rs, |rs|) == t.gasUsed
  }

  ghost predicate SoundUpTo(rs: seq<Receipt>, t: Target, n: nat)
    requires n <= |rs|
  {
    forall i :: 0 <= i < n ==> Belongs(rs[i], t, i) && rs[i].cumulative.value == SumGas(rs, i + 1)
  }

  /** The figures recorded so far are the compute gas before each transaction. */
  ghost predicate PrefixSums(rs: seq<Receipt>, before: seq<u64>) {
    && |before| <= |rs|
    && forall i :: 0 <= i < |before| ==> before[i] == SumGas(rs, i) - SumPoster(rs, i)
  }

  datatype Parsed = Rejected | Parsed(posterGas: u64, computeGasBefore: seq<u64>)

  /** The checks on one receipt, given the totals so far. The overflow guards never decide: a sum past
      64 bits already disagrees with the 64-bit cumulative figure. */
  method CheckReceipt(r: Receipt, t: Target, i: nat, totalGas: u64, total: u64) returns (ok: bool, gas: u64, poster: u64)
    requires total <= totalGas
    ensures ok <==> Belongs(r, t, i) && r.cumulative.value == totalGas + GasOf(r)
    ensures ok ==> gas == totalGas + GasOf(r) && poster == total + PosterOf(r) && poster <= gas
  {
    hide EqualFold;
    ok, gas, poster := false, totalGas, total;
    if r.blockHash == "" || !EqualFold(r.blockHash, t.hash) { return; }
    if !r.blockNumber.Quantity? || r.blockNumber.value != t.number { return; }
    if t.hashesKnown {
      if i >= |t.txHashes| { return; }
      if r.txHash == "" || !EqualFold(r.txHash, t.txHashes[i]) { return; }
    }
    if !r.txIndex.Quantity? || r.txIndex.value != i { return; }
    if !r.gasUsed.Quantity? { return; }
    if r.gasUsed.value > MAX_U64 - totalGas { return; }
    gas := totalGas + r.gasUsed.value;
    if !r.cumulative.Quantity? || r.cumulative.value != gas { return; }
    if !r.gasUsedForL1.Quantity? || r.gasUsedForL1.value > r.gasUsed.value { return; }
    if r.gasUsedForL1.value > MAX_U64 - total { return; }
    poster := total + r.gasUsedForL1.value;
    ok := true;
  }

  lemma NextReceipt(rs: seq<Receipt>, t: Target, i: nat)
    requires i < |rs| && SoundUpTo(rs, t, i)
    ensures SoundUpTo(rs, t, i + 1) <==> Belongs(rs[i], t, i) && rs[i].cumulative.value == SumGas(rs, i) + GasOf(rs[i])
    ensures SoundUpTo(rs, t, |rs|) ==> SoundUpTo(rs, t, i + 1)
  {
    assert SumGas(rs, i + 1) == SumGas(rs, i) + GasOf(rs[i]);
  }

  /** parseReceipts. A null answer is None. */
  method ParseReceipts(receipts: Option<seq<Receipt>>, t: Target) returns (p: Parsed)
    ensures p.Parsed? <==> receipts.Some? && Acceptable(receipts.value, t)
    ensures p.Parsed? ==>
              && p.posterGas == SumPoster(receipts.value, |receipts.value|)
              && |p.computeGasBefore| == |receipts.value| && PrefixSums(receipts.value, p.computeGasBefore)
  {
    hide Belongs, SoundUpTo;
    if receipts.None? { return Rejected; }
    var rs := receipts.value;
    if |rs| != t.txCount { return Rejected; }
    var before: seq<u64> := [];
    var total: u64, totalGas: u64 := 0, 0;
    var i := 0;
    SoundFromZero(rs, t);
    while i < |rs|
      invariant i <= |rs| && |before| == i
      invariant SoundUpTo(rs, t, i) && PrefixSums(rs, before)
      invariant totalGas == SumGas(rs, i) && total == SumPoster(rs, i) && total <= totalGas
    {
      before := before + [totalGas - total];
      var ok, gas, poster := CheckReceipt(rs[i], t, i, totalGas, total);
      NextReceipt(rs, t, i);
      if !ok { return Rejected; }
      totalGas, total := gas, poster;
      i := i + 1;
    }
    if totalGas != t.gasUsed { return Rejected; }
    if total > t.gasUsed { return Rejected; }
    p := Parsed(total, before);
  }

  lemma SoundFromZero(rs: seq<Receipt>, t: Target)
    ensures SoundUpTo(rs, t, 0)
  {
  }

  // ----- compute gas -----

  /** A header joined with its receipts, or read alone (no poster gas). */
  datatype Header = Header(number: u64, timestamp: u64, gasUsed: u64, posterGas: Option<u64>, computeGasBefore: seq<u64>) {
    function ComputeGas(): u64 {
      if posterGas.None? then gasUsed
      else if posterGas.value > gasUsed then 0
      else gasUsed - posterGas.value
    }

    function ComputeGasBeforeTx(index: nat): Option<u64> {
      if index < |computeGasBefore| then Some(computeGasBefore[index]) else None
    }
  }

  /** The compute gas of each transaction. */
  function ComputeGases(rs: seq<Receipt>): (g: seq<u64>)
    ensures |g| == |rs|
  {
    seq(|rs|, i requires 0 <= i < |rs| => SaturatingUSub(GasOf(rs[i]), PosterOf(rs[i])))
  }

  function Sum(gases: seq<u64>, i: nat): nat
    requires i <= |gases|
  {
    if i == 0 then 0 else Sum(gases, i - 1) + gases[i - 1]
  }

  lemma {:induction false} SumGrows(gases: seq<u64>, i: nat, j: nat)
    requires i <= j <= |gases|
    ensures Sum(gases, i) <= Sum(gases, j)
    decreases j
  {
    if i < j { SumGrows(gases, i, j - 1); }
  }

  lemma {:induction false} ComputeSum(rs: seq<Receipt>, t: Target, i: nat)
    requires SoundUpTo(rs, t, |rs|)
    requires i <= |rs|
    ensures Sum(ComputeGases(rs), i) == SumGas(rs, i) - SumPoster(rs, i)
    decreases i
  {
    if i > 0 {
      ComputeSum(rs, t, i - 1);
      assert Belongs(rs[i - 1], t, i - 1);
    }
  }

  /** For an accepted receipt set the recorded figures are exact prefix sums of compute gas: they start
      at zero, grow by each transaction's own share, and end at the block's compute gas. */
  lemma AcceptedPrefixSums(rs: seq<Receipt>, t: Target, i: nat, j: nat)
    requires Acceptable(rs, t) && i <= j <= |rs|
    ensures SumGas(rs, i) - SumPoster(rs, i) == Sum(ComputeGases(rs), i)
    ensures Sum(ComputeGases(rs), i) <= Sum(ComputeGases(rs), j) <= Sum(ComputeGases(rs), |rs|) == t.gasUsed - SumPoster(rs, |rs|)
  {
    ComputeSum(rs, t, i);
    ComputeSum(rs, t, |rs|);
    SumGrows(ComputeGases(rs), i, j);
    SumGrows(ComputeGases(rs), j, |rs|);
  }

  // ----- owner actions inside a block -----

  datatype LegacyParam = SpeedLimit | Inertia | Tolerance

  /** A recorded pricing change: a constraint set, a minimum fee, or one legacy parameter. */
  datatype Change = SetConstraints(entries: seq<Constraint>) | SetFee(fee: nat) | SetLegacy(param: LegacyParam, value: u64)

  function ApplyChange(s: State, c: Change): State {
    match c
    case SetConstraints(entries) =>
      if entries != [] then s.(constraints := entries, legacy := None) else s.(constraints := entries)
    case SetFee(fee) => s.(minBaseFee := fee)
    case SetLegacy(param, value) =>
      if s.legacy.None? then s
      else s.(legacy := Some(match param
                             case SpeedLimit => s.legacy.value.(speedLimit := value)
                             case Inertia => s.legacy.value.(inertia := value)
                             case Tolerance => s.legacy.value.(tolerance := value)))
  }

  /** A change sets what it names and nothing else; a constraint list also retires the legacy model, and a legacy
      parameter needs one. */
  lemma ChangeMeans(s: State, c: Change)
    ensures var t := ApplyChange(s, c);
            && (c.SetConstraints? ==> t.constraints == c.entries && t.minBaseFee == s.minBaseFee
                                      && (t.legacy == if c.entries != [] then None else s.legacy))
            && (c.SetFee? ==> t.minBaseFee == c.fee && t.constraints == s.constraints && t.legacy == s.legacy)
            && (c.SetLegacy? ==> t.constraints == s.constraints && t.minBaseFee == s.minBaseFee)
            && (c.SetLegacy? && s.legacy.None? ==> t.legacy.None?)
            && (c.SetLegacy? && s.legacy.Some? ==>
                  && t.legacy.Some?
                  && var l, m := s.legacy.value, t.legacy.value;
                  && m.backlog == l.backlog
                  && m.speedLimit == (if c.param == SpeedLimit then c.value else l.speedLimit)
                  && m.inertia == (if c.param == Inertia then c.value else l.inertia)
                  && m.tolerance == (if c.param == Tolerance then c.value else l.tolerance))
  {
  }

  function ApplyChanges(s: State, cs: seq<Change>): State
    decreases |cs|
  {
    if cs == [] then s else ApplyChanges(ApplyChange(s, cs[0]), cs[1..])
  }

  /** The point just before an owner action's transaction. */
  datatype Boundary = Boundary(txIndex: nat, gasBefore: u64, changes: seq<Change>)

  /** applyActionGas from a running total on: each subtraction is a wrapping 64-bit one. */
  function ActionGas(s: State, gasUsed: u64, bs: seq<Boundary>, applied: u64): State
    decreases |bs|
  {
    if bs == [] then GasAdded(s, WrapU64(gasUsed - applied))
    else
      var before := Min(bs[0].gasBefore, gasUsed);
      ActionGas(ApplyChanges(GasAdded(s, WrapU64(before - applied)), bs[0].changes), gasUsed, bs[1..], before)
  }

  method ApplyPricingChanges(p: Pricer, cs: seq<Change>)
    modifies p
    ensures p.Value() == ApplyChanges(old(p.Value()), cs)
  {
    var i := 0;
    assert cs[0..] == cs;
    while i < |cs|
      invariant i <= |cs|
      invariant ApplyChanges(p.Value(), cs[i..]) == ApplyChanges(old(p.Value()), cs)
    {
      assert cs[i..][0] == cs[i] && cs[i..][1..] == cs[i + 1..];
      match cs[i] {
        case SetConstraints(entries) =>
          p.constraints := entries;
          if |entries| > 0 { p.legacy := None; }
        case SetFee(fee) =>
          p.minBaseFee := fee;
        case SetLegacy(param, value) =>
          if p.legacy.Some? {
            match param
            case SpeedLimit => p.legacy := Some(p.legacy.value.(speedLimit := value));
            case Inertia => p.legacy := Some(p.legacy.value.(inertia := value));
            case Tolerance => p.legacy := Some(p.legacy.value.(tolerance := value));
          }
      }
      i := i + 1;
    }
  }

  /** applyActionGas: gas before an action goes to the old state, the action mutates it, the rest goes
      to the new one. */
  method ApplyActionGas(p: Pricer, gasUsed: u64, boundaries: seq<Boundary>)
    modifies p
    ensures p.Value() == ActionGas(old(p.Value()), gasUsed, boundaries, 0)
  {
    hide GasAdded, ApplyChanges;
    var applied: u64 := 0;
    var i := 0;
    assert boundaries[0..] == boundaries;
    while i < |boundaries|
      invariant i <= |boundaries|
      invariant ActionGas(p.Value(), gasUsed, boundaries[i..], applied) == ActionGas(old(p.Value()), gasUsed, boundaries, 0)
    {
      assert boundaries[i..][0] == boundaries[i] && boundaries[i..][1..] == boundaries[i + 1..];
      var gasBefore: u64 := Min(boundaries[i].gasBefore, gasUsed);
      p.AddGas(WrapU64(gasBefore - applied));
      ApplyPricingChanges(p, boundaries[i].changes);
      applied := gasBefore;
      i := i + 1;
    }
    p.AddGas(WrapU64(gasUsed - applied));
  }

  // ----- the reference: one transaction at a time -----

  /** Every transaction from index i on: an action at the transaction is applied first, then the
      transaction's own compute gas is added. */
  function TxByTx(s: State, gases: seq<u64>, bs: seq<Boundary>, i: nat): State
    requires i <= |gases|
    decreases |gases| - i
  {
    if i == |gases| then s
    else if bs != [] && bs[0].txIndex == i then
      TxByTx(GasAdded(ApplyChanges(s, bs[0].changes), gases[i]), gases, bs[1..], i + 1)
    else TxByTx(GasAdded(s, gases[i]), gases, bs, i + 1)
  }

  /** Actions at strictly increasing transactions of the block, not before index i. */
  ghost predicate Ordered(bs: seq<Boundary>, i: nat, n: nat) {
    && (forall j :: 0 <= j < |bs| ==> i <= bs[j].txIndex < n)
    && (forall j, k :: 0 <= j < k < |bs| ==> bs[j].txIndex < bs[k].txIndex)
  }

  /** Each boundary carries the exact compute gas before its transaction. */
  ghost predicate Placed(bs: seq<Boundary>, gases: seq<u64>) {
    forall j :: 0 <= j < |bs| ==> bs[j].txIndex <= |gases| && bs[j].gasBefore == Sum(gases, bs[j].txIndex)
  }

  lemma GasAddedZero(s: State)
    ensures GasAdded(s, 0) == s
  {
    assert AddToAll(s.constraints, 0) == s.constraints;
  }

  /** Saturation does not break additivity: two portions are one. */
  lemma GasAddedTwice(s: State, a: u64, b: u64)
    requires a + b <= MAX_U64
    ensures GasAdded(GasAdded(s, a), b) == GasAdded(s, a + b)
  {
    assert AddToAll(AddToAll(s.constraints, a), b) == AddToAll(s.constraints, a + b);
  }

  /** Moving a portion of gas that lies before every remaining action out of the running total. */
  lemma PortionFirst(s: State, total: u64, bs: seq<Boundary>, a: u64, g: u64)
    requires a + g <= total
    requires bs != [] ==> a + g <= bs[0].gasBefore
    ensures ActionGas(s, total, bs, a) == ActionGas(GasAdded(s, g), total, bs, a + g)
  {
    hide GasAdded, ApplyChanges;
    var next := if bs == [] then total else Min(bs[0].gasBefore, total);
    GasAddedTwice(s, g, next - (a + g));
  }

  lemma {:induction false} ActionGasFrom(s: State, gases: seq<u64>, bs: seq<Boundary>, total: u64, i: nat)
    requires i <= |gases| && Ordered(bs, i, |gases|) && Placed(bs, gases)
    requires total == Sum(gases, |gases|)
    requires Sum(gases, i) <= total
    ensures ActionGas(s, total, bs, Sum(gases, i)) == TxByTx(s, gases, bs, i)
    decreases |gases| - i, |bs|
  {
    hide GasAdded, ApplyChanges;
    if i == |gases| {
      assert bs == [];
      GasAddedZero(s);
    } else {
      SumGrows(gases, i, |gases|);
      SumGrows(gases, i + 1, |gases|);
      if bs != [] && bs[0].txIndex == i {
        GasAddedZero(s);
        NextPortion(ApplyChanges(s, bs[0].changes), gases, bs[1..], total, i);
        ActionGasFrom(GasAdded(ApplyChanges(s, bs[0].changes), gases[i]), gases, bs[1..], total, i + 1);
      } else {
        NextPortion(s, gases, bs, total, i);
        ActionGasFrom(GasAdded(s, gases[i]), gases, bs, total, i + 1);
      }
    }
  }

  lemma NextPortion(s: State, gases: seq<u64>, bs: seq<Boundary>, total: u64, i: nat)
    requires i < |gases| && Ordered(bs, i + 1, |gases|) && Placed(bs, gases)
    requires Sum(gases, i + 1) == Sum(gases, i) + gases[i] <= total
    ensures ActionGas(s, total, bs, Sum(gases, i)) == ActionGas(GasAdded(s, gases[i]), total, bs, Sum(gases, i + 1))
  {
    hide GasAdded, ApplyChanges, ActionGas;
    if bs != [] { SumGrows(gases, i + 1, bs[0].txIndex); }
    PortionFirst(s, total, bs, Sum(gases, i), gases[i]);
  }

  /** The amounts applyActionGas adds, in order, each a wrapping subtraction. */
  function Portions(gasUsed: u64, bs: seq<Boundary>, applied: u64): seq<u64>
    decreases |bs|
  {
    if bs == [] then [WrapU64(gasUsed - applied)]
    else
      var before := Min(bs[0].gasBefore, gasUsed);
      [WrapU64(before - applied)] + Portions(gasUsed, bs[1..], before)
  }

  function Total(portions: seq<u64>): nat { if portions == [] then 0 else portions[0] + Total(portions[1..]) }

  /** For boundaries whose gas does not decrease, whatever basis it was resolved against, nothing wraps
      and the portions add up to exactly the gas of the block. */
  lemma {:induction false} PortionsConserveGas(gasUsed: u64, bs: seq<Boundary>, applied: u64)
    requires applied <= gasUsed
    requires forall j :: 0 <= j < |bs| ==> applied <= bs[j].gasBefore || gasUsed <= bs[j].gasBefore
    requires forall j, k :: 0 <= j < k < |bs| ==> bs[j].gasBefore <= bs[k].gasBefore
    ensures Total(Portions(gasUsed, bs, applied)) == gasUsed - applied
    decreases |bs|
  {
    if bs != [] {
      var before := Min(bs[0].gasBefore, gasUsed);
      PortionsConserveGas(gasUsed, bs[1..], before);
      assert Portions(gasUsed, bs, applied)[1..] == Portions(gasUsed, bs[1..], before);
    }
  }

  // ----- the two joined -----

  function ResolveOne(h: Header, b: Boundary): Boundary {
    match h.ComputeGasBeforeTx(b.txIndex)
    case Some(g) => b.(gasBefore := g)
    case None => b
  }

  /** How replayForward places the boundaries of a block whose header carries its receipts. */
  function Resolve(h: Header, bs: seq<Boundary>): (r: seq<Boundary>)
    ensures |r| == |bs|
  {
    seq(|bs|, j requires 0 <= j < |bs| => ResolveOne(h, bs[j]))
  }

  /** The header joined with what the parser returned. */
  ghost predicate JoinedWith(h: Header, rs: seq<Receipt>, t: Target) {
    && Acceptable(rs, t) && h.gasUsed == t.gasUsed
    && SumPoster(rs, |rs|) <= MAX_U64 && h.posterGas == Some(SumPoster(rs, |rs|))
    && |h.computeGasBefore| == |rs| && PrefixSums(rs, h.computeGasBefore)
  }

  lemma {:induction false} SameActions(s: State, gases: seq<u64>, xs: seq<Boundary>, ys: seq<Boundary>, i: nat)
    requires i <= |gases| && |xs| == |ys|
    requires forall j :: 0 <= j < |xs| ==> xs[j].txIndex == ys[j].txIndex && xs[j].changes == ys[j].changes
    ensures TxByTx(s, gases, xs, i) == TxByTx(s, gases, ys, i)
    decreases |gases| - i
  {
    hide GasAdded, ApplyChanges;
    if i < |gases| {
      if xs != [] && xs[0].txIndex == i {
        SameActions(GasAdded(ApplyChanges(s, xs[0].changes), gases[i]), gases, xs[1..], ys[1..], i + 1);
      } else {
        SameActions(GasAdded(s, gases[i]), gases, xs, ys, i + 1);
      }
    }
  }

  /** Splitting the block's gas around its sorted owner actions equals adding each transaction's compute
      gas one at a time with each action applied just before its own transaction. */
  lemma BlockGasSplit(s: State, h: Header, rs: seq<Receipt>, t: Target, bs: seq<Boundary>)
    requires JoinedWith(h, rs, t) && Ordered(bs, 0, |rs|)
    ensures ActionGas(s, h.ComputeGas(), Resolve(h, bs), 0) == TxByTx(s, ComputeGases(rs), bs, 0)
  {
    hide ActionGas, TxByTx, SumGas, SumPoster, Acceptable, ComputeGases;
    var gases, placed := ComputeGases(rs), Resolve(h, bs);
    forall j | 0 <= j < |bs| ensures placed[j].gasBefore == Sum(gases, bs[j].txIndex) {
      AcceptedPrefixSums(rs, t, bs[j].txIndex, |rs|);
    }
    AcceptedPrefixSums(rs, t, 0, |rs|);
    ActionGasFrom(s, gases, placed, h.ComputeGas(), 0);
    SameActions(s, gases, placed, bs, 0);
  }
}
