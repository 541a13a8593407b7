/** The ArbOS internal transactions of internal/nitro/internaltx.go: startBlock and both batch posting
    reports, with the addresses and hex of internal/nitro/abi.go. */
module InternalTx {
  import opened Words
  import opened Abi

  // ----- hex -----

  const DIGITS: string := "0123456789abcdef"

  function Digit(n: nat): char
    requires n < 16
  {
    DIGITS[n]
  }

  /** Both cases are read. */
  function DigitValue(c: char): (r: Option<nat>)
    ensures r.Some? ==> r.value < 16
  {
    if '0' <= c <= '9' then Some((c - '0') as int)
    else if 'a' <= c <= 'f' then Some((c - 'a') as int + 10)
    else if 'A' <= c <= 'F' then Some((c - 'A') as int + 10)
    else None
  }

  function HexOf(b: seq<byte>): (r: string)
    ensures |r| == 2 * |b|
    decreases |b|
  {
    if b == [] then [] else HexOf(b[..|b| - 1]) + [Digit(b[|b| - 1] / 16), Digit(b[|b| - 1] % 16)]
  }

  function EncodeHex(b: seq<byte>): string { "0x" + HexOf(b) }

  function TrimPrefix(s: string, p: string): string { if |p| <= |s| && s[..|p|] == p then s[|p|..] else s }

  function Pair(hi: char, lo: char): Option<byte> {
    var h, l := DigitValue(hi), DigitValue(lo);
    if h.Some? && l.Some? then Some(h.value * 16 + l.value) else None
  }

  /** The bytes of the first n pairs of digits. */
  function Nibbles(s: string, n: nat): (r: Result<seq<byte>>)
    requires 2 * n <= |s|
    ensures r.Ok? ==> |r.value| == n
    decreases n
  {
    if n == 0 then Ok([])
    else
      match Nibbles(s, n - 1)
      case Err(e) => Err(e)
      case Ok(b) =>
        match Pair(s[2 * n - 2], s[2 * n - 1])
        case None => Err(BadHex)
        case Some(x) => Ok(b + [x])
  }

  /** Prefixes are optional and an odd number of digits gets a leading zero. */
  function DecodeHex(s: string): Result<seq<byte>> {
    var t := TrimPrefix(TrimPrefix(s, "0x"), "0X");
    var u := if |t| % 2 == 1 then "0" + t else t;
    Nibbles(u, |u| / 2)
  }

  ghost predicate LowerHex(c: char) { '0' <= c <= '9' || 'a' <= c <= 'f' }

  /** A 20-byte address in lower case. */
  ghost predicate LowerAddress(s: string) {
    |s| == 42 && s[..2] == "0x" && forall i :: 2 <= i < 42 ==> LowerHex(s[i])
  }

  lemma DigitFacts(n: nat)
    requires n < 16
    ensures LowerHex(Digit(n)) && DigitValue(Digit(n)) == Some(n)
  {
  }

  lemma LowerDigit(c: char)
    requires LowerHex(c)
    ensures DigitValue(c).Some? && Digit(DigitValue(c).value) == c
  {
  }

  lemma PairOfDigits(x: byte)
    ensures Pair(Digit(x / 16), Digit(x % 16)) == Some(x)
  {
    hide Digit, DigitValue;
    DigitFacts(x / 16);
    DigitFacts(x % 16);
  }

  lemma DigitsOfPair(hi: char, lo: char)
    requires LowerHex(hi) && LowerHex(lo)
    ensures Pair(hi, lo).Some? && Digit(Pair(hi, lo).value / 16) == hi && Digit(Pair(hi, lo).value % 16) == lo
  {
    hide Digit, DigitValue;
    LowerDigit(hi);
    LowerDigit(lo);
  }

  lemma {:induction false} HexAt(b: seq<byte>, k: nat)
    requires k < |b|
    ensures HexOf(b)[2 * k] == Digit(b[k] / 16) && HexOf(b)[2 * k + 1] == Digit(b[k] % 16)
    decreases |b|
  {
    hide Digit;
    if k < |b| - 1 { HexAt(b[..|b| - 1], k); }
  }

  lemma {:induction false} NibblesOfHex(b: seq<byte>, n: nat)
    requires n <= |b|
    ensures Nibbles(HexOf(b), n) == Ok(b[..n])
    decreases n
  {
    hide HexOf, Digit, Pair;
    if n > 0 {
      NibblesOfHex(b, n - 1);
      HexAt(b, n - 1);
      PairOfDigits(b[n - 1]);
      assert b[..n] == b[..n - 1] + [b[n - 1]];
    }
  }

  lemma {:induction false} HexIsLower(b: seq<byte>, i: nat)
    requires i < |HexOf(b)|
    ensures LowerHex(HexOf(b)[i])
    decreases |b|
  {
    var front, x := b[..|b| - 1], b[|b| - 1];
    if i < |HexOf(front)| {
      HexIsLower(front, i);
    } else {
      DigitFacts(x / 16);
      DigitFacts(x % 16);
    }
  }

  lemma {:induction false} NibblesRead(s: string, n: nat)
    requires 2 * n <= |s| && forall i :: 0 <= i < |s| ==> LowerHex(s[i])
    ensures Nibbles(s, n).Ok?
    ensures forall k :: 0 <= k < n ==> Pair(s[2 * k], s[2 * k + 1]) == Some(Nibbles(s, n).value[k])
    decreases n
  {
    hide Pair, LowerHex;
    if n > 0 {
      NibblesRead(s, n - 1);
      DigitsOfPair(s[2 * n - 2], s[2 * n - 1]);
    }
  }

  lemma HexOfNibbles(s: string, n: nat)
    requires 2 * n == |s| && forall i :: 0 <= i < |s| ==> LowerHex(s[i])
    ensures Nibbles(s, n).Ok? && HexOf(Nibbles(s, n).value) == s
  {
    hide Pair, LowerHex, HexOf, Nibbles, Digit;
    NibblesRead(s, n);
    var b := Nibbles(s, n).value;
    forall k | 0 <= k < n ensures HexOf(b)[2 * k] == s[2 * k] && HexOf(b)[2 * k + 1] == s[2 * k + 1] {
      HexAt(b, k);
      DigitsOfPair(s[2 * k], s[2 * k + 1]);
    }
    forall i | 0 <= i < |s| ensures HexOf(b)[i] == s[i] {
      var k := i / 2;
      assert i == 2 * k || i == 2 * k + 1;
    }
  }

  /** What EncodeHex writes DecodeHex reads. */
  lemma HexRoundTrip(b: seq<byte>)
    ensures DecodeHex(EncodeHex(b)) == Ok(b)
  {
    hide HexOf, Nibbles;
    var s := EncodeHex(b);
    assert s[..2] == "0x" && s[2..] == HexOf(b);
    assert TrimPrefix(s, "0x") == HexOf(b);
    NoSecondPrefix(b);
    hide TrimPrefix;
    NibblesOfHex(b, |b|);
    assert b[..|b|] == b;
  }

  lemma NoSecondPrefix(b: seq<byte>)
    ensures TrimPrefix(HexOf(b), "0X") == HexOf(b)
  {
    if |HexOf(b)| >= 2 {
      HexIsLower(b, 1);
      assert HexOf(b)[..2][1] == HexOf(b)[1];
      assert "0X"[1] == 'X';
    }
  }

  /** And a lower-case address is what EncodeHex writes for its twenty bytes. */
  lemma AddressBytes(s: string) returns (a: seq<byte>)
    requires LowerAddress(s)
    ensures |a| == 20 && EncodeHex(a) == s && DecodeHex(s) == Ok(a)
  {
    hide Nibbles, HexOf, DecodeHex, LowerHex;
    var t := s[2..];
    assert forall i :: 0 <= i < |t| ==> LowerHex(t[i]) by {
      forall i | 0 <= i < |t| ensures LowerHex(t[i]) { assert t[i] == s[i + 2]; }
    }
    HexOfNibbles(t, 20);
    a := Nibbles(t, 20).value;
    assert s == "0x" + t;
    HexRoundTrip(a);
  }

  lemma EncodedIsLower(a: seq<byte>)
    requires |a| == 20
    ensures LowerAddress(EncodeHex(a))
  {
    var s := EncodeHex(a);
    forall i | 2 <= i < 42 ensures LowerHex(s[i]) { HexIsLower(a, i - 2); }
  }

  // ----- the transactions -----

  /** Fees are arbitrary-precision and signed; only the absolute value is written. */
  datatype StartBlock = StartBlock(l1BaseFee: int, l1Block: u64, l2Block: u64, timePassed: u64)

  datatype Report = Report(version: int, timestamp: u64, poster: string, batch: u64, calldataLen: u64, calldataNonZeros: u64,
                           extraGas: u64, l1BaseFee: int)

  datatype Internal = Opening(start: StartBlock) | Posting(report: Report)

  const SEL_START: seq<byte> := [0x6b, 0xf6, 0xa4, 0x2d]
  const SEL_V2: seq<byte> := [0x99, 0x98, 0x26, 0x9e]
  const SEL_V1: seq<byte> := [0xb6, 0x69, 0x37, 0x71]

  function FeeWord(fee: int): (r: seq<byte>)
    ensures |r| == WORD
  {
    PadWord(Bytes(Magnitude(fee)))
  }

  function PosterWord(poster: string): (r: seq<byte>)
    ensures |r| == WORD
  {
    match DecodeHex(poster)
    case Ok(a) => PadWord(a)
    case Err(_) => PadWord([])
  }

  function StartWords(s: StartBlock): (r: seq<seq<byte>>)
    ensures Whole(r)
  {
    [FeeWord(s.l1BaseFee), EncodeUint64(s.l1Block), EncodeUint64(s.l2Block), EncodeUint64(s.timePassed)]
  }

  function ReportWords(r: Report): (w: seq<seq<byte>>)
    ensures Whole(w)
  {
    if r.version == 1 then
      [EncodeUint64(r.timestamp), PosterWord(r.poster), EncodeUint64(r.batch), EncodeUint64(r.extraGas), FeeWord(r.l1BaseFee)]
    else
      [EncodeUint64(r.timestamp), PosterWord(r.poster), EncodeUint64(r.batch), EncodeUint64(r.calldataLen),
       EncodeUint64(r.calldataNonZeros), EncodeUint64(r.extraGas), FeeWord(r.l1BaseFee)]
  }

  function EncodeStartBlock(s: StartBlock): seq<byte> { SEL_START + Joined(StartWords(s)) }

  function EncodeReport(r: Report): seq<byte> { (if r.version == 1 then SEL_V1 else SEL_V2) + Joined(ReportWords(r)) }

  function WordAddress(data: seq<byte>, i: nat): Result<string> {
    match Word(data, i)
    case Err(e) => Err(e)
    case Ok(w) => Ok(EncodeHex(w[12..]))
  }

  function DecodeStart(body: seq<byte>): Result<StartBlock> {
    match WordBig(body, 0)
    case Err(e) => Err(e)
    case Ok(fee) =>
      match WordUint64(body, 1)
      case Err(e) => Err(e)
      case Ok(l1) =>
        match WordUint64(body, 2)
        case Err(e) => Err(e)
        case Ok(l2) =>
          match WordUint64(body, 3)
          case Err(e) => Err(e)
          case Ok(passed) => Ok(StartBlock(fee, l1, l2, passed))
  }

  /** The first three fields, which both versions share. */
  datatype Head = Head(timestamp: u64, poster: string, batch: u64)

  function DecodeHead(body: seq<byte>): Result<Head> {
    match WordUint64(body, 0)
    case Err(e) => Err(e)
    case Ok(timestamp) =>
      match WordAddress(body, 1)
      case Err(e) => Err(e)
      case Ok(poster) =>
        match WordUint64(body, 2)
        case Err(e) => Err(e)
        case Ok(batch) => Ok(Head(timestamp, poster, batch))
  }

  function DecodeV2(body: seq<byte>): Result<Report> {
    match DecodeHead(body)
    case Err(e) => Err(e)
    case Ok(h) =>
      match WordUint64(body, 3)
      case Err(e) => Err(e)
      case Ok(length) =>
        match WordUint64(body, 4)
        case Err(e) => Err(e)
        case Ok(nonZeros) =>
          match WordUint64(body, 5)
          case Err(e) => Err(e)
          case Ok(extra) =>
            match WordBig(body, 6)
            case Err(e) => Err(e)
            case Ok(fee) => Ok(Report(2, h.timestamp, h.poster, h.batch, length, nonZeros, extra, fee))
  }

  function DecodeV1(body: seq<byte>): Result<Report> {
    match DecodeHead(body)
    case Err(e) => Err(e)
    case Ok(h) =>
      match WordUint64(body, 3)
      case Err(e) => Err(e)
      case Ok(extra) =>
        match WordBig(body, 4)
        case Err(e) => Err(e)
        case Ok(fee) => Ok(Report(1, h.timestamp, h.poster, h.batch, 0, 0, extra, fee))
  }

  function DecodeInternalTx(input: seq<byte>): Result<Internal> {
    if |input| < 4 then Err(NotInternal)
    else
      var sel, body := input[..4], input[4..];
      if sel == SEL_START then
        match DecodeStart(body) case Err(e) => Err(e) case Ok(s) => Ok(Opening(s))
      else if sel == SEL_V2 then
        match DecodeV2(body) case Err(e) => Err(e) case Ok(r) => Ok(Posting(r))
      else if sel == SEL_V1 then
        match DecodeV1(body) case Err(e) => Err(e) case Ok(r) => Ok(Posting(r))
      else Err(NotInternal)
  }

  // ----- round trips -----

  ghost predicate FeeFits(fee: int) { 0 <= fee < Pow256(WORD) }

  lemma FeeAt(words: seq<seq<byte>>, i: nat, fee: int)
    requires Whole(words) && i < |words| <= 7 && words[i] == FeeWord(fee) && FeeFits(fee)
    ensures WordBig(Joined(words), i) == Ok(fee)
  {
    WordAt(words, i);
    PadRoundTrip(fee);
  }

  lemma PosterAt(words: seq<seq<byte>>, i: nat, poster: string)
    requires Whole(words) && i < |words| <= 7 && words[i] == PosterWord(poster) && LowerAddress(poster)
    ensures WordAddress(Joined(words), i) == Ok(poster)
  {
    WordAt(words, i);
    var a := AddressBytes(poster);
    assert PadWord(a)[12..] == a;
  }

  lemma BodyOf(sel: seq<byte>, body: seq<byte>)
    requires |sel| == 4
    ensures (sel + body)[..4] == sel && (sel + body)[4..] == body
  {
  }

  /** Whatever the decoder reads has a fee of at most 256 bits. */
  lemma StartRoundTrip(s: StartBlock)
    ensures DecodeInternalTx(EncodeStartBlock(s)) == Ok(Opening(s)) <==> FeeFits(s.l1BaseFee)
  {
    hide Joined, WordUint64, EncodeUint64, FeeWord, WordBig;
    var w := StartWords(s);
    BodyOf(SEL_START, Joined(w));
    Uint64At(w, 1, s.l1Block);
    Uint64At(w, 2, s.l2Block);
    Uint64At(w, 3, s.timePassed);
    if FeeFits(s.l1BaseFee) { FeeAt(w, 0, s.l1BaseFee); }
  }

  /** What a report must be for its calldata to say it all: a version that exists, a lower-case 20-byte
      poster, a fee of at most 256 bits and, in version 1, no calldata counts. */
  ghost predicate Canonical(r: Report) {
    && (r.version == 1 || r.version == 2)
    && LowerAddress(r.poster)
    && FeeFits(r.l1BaseFee)
    && (r.version == 1 ==> r.calldataLen == 0 && r.calldataNonZeros == 0)
  }

  lemma AddressesAreLower(body: seq<byte>, i: nat)
    ensures WordAddress(body, i).Ok? ==> LowerAddress(WordAddress(body, i).value)
  {
    if Word(body, i).Ok? { EncodedIsLower(Word(body, i).value[12..]); }
  }

  lemma DecodedIsCanonical(input: seq<byte>)
    ensures DecodeInternalTx(input).Ok? && DecodeInternalTx(input).value.Posting? ==> Canonical(DecodeInternalTx(input).value.report)
  {
    hide WordUint64, WordBig, WordAddress;
    if |input| >= 4 { AddressesAreLower(input[4..], 1); }
  }

  lemma V1RoundTrip(r: Report)
    requires Canonical(r) && r.version == 1
    ensures DecodeInternalTx(EncodeReport(r)) == Ok(Posting(r))
  {
    hide Joined, WordUint64, EncodeUint64, FeeWord, PosterWord, WordBig, WordAddress, LowerAddress;
    var w := ReportWords(r);
    BodyOf(SEL_V1, Joined(w));
    Uint64At(w, 0, r.timestamp);
    PosterAt(w, 1, r.poster);
    Uint64At(w, 2, r.batch);
    Uint64At(w, 3, r.extraGas);
    FeeAt(w, 4, r.l1BaseFee);
  }

  lemma V2RoundTrip(r: Report)
    requires Canonical(r) && r.version == 2
    ensures DecodeInternalTx(EncodeReport(r)) == Ok(Posting(r))
  {
    hide Joined, WordUint64, EncodeUint64, FeeWord, PosterWord, WordBig, WordAddress, LowerAddress;
    var w := ReportWords(r);
    BodyOf(SEL_V2, Joined(w));
    Uint64At(w, 0, r.timestamp);
    PosterAt(w, 1, r.poster);
    Uint64At(w, 2, r.batch);
    Uint64At(w, 3, r.calldataLen);
    Uint64At(w, 4, r.calldataNonZeros);
    Uint64At(w, 5, r.extraGas);
    FeeAt(w, 6, r.l1BaseFee);
  }

  /** Decoding undoes encoding for exactly the canonical reports. */
  lemma ReportRoundTrip(r: Report)
    ensures DecodeInternalTx(EncodeReport(r)) == Ok(Posting(r)) <==> Canonical(r)
  {
    DecodedIsCanonical(EncodeReport(r));
    hide DecodeInternalTx, EncodeReport, LowerAddress, FeeFits;
    if Canonical(r) {
      if r.version == 1 { V1RoundTrip(r); } else { V2RoundTrip(r); }
    }
  }
}
