/** The calldata of the ArbOS internal transactions word by word, and exactly what the decoder accepts and reads
    (internal/nitro/internaltx.go, abi.go). */
module InternalTxMeaning {
  import opened Words
  import opened Abi
  import opened InternalTx

  /** Word i after the selector. */
  function At(calldata: seq<byte>, i: nat): (r: seq<byte>)
    requires |calldata| >= 4 + WORD * (i + 1)
    ensures |r| == WORD
  {
    calldata[4 + i * WORD..4 + i * WORD + WORD]
  }

  function Value(calldata: seq<byte>, i: nat): nat
    requires |calldata| >= 4 + WORD * (i + 1)
  {
    SetBytes(At(calldata, i))
  }

  // ----- what is written -----

  lemma Slot(sel: seq<byte>, words: seq<seq<byte>>, i: nat)
    requires |sel| == 4 && Whole(words) && i < |words|
    ensures var c := sel + Joined(words); |c| == 4 + WORD * |words| && c[..4] == sel && At(c, i) == words[i]
  {
    SliceAt(words, i);
    var c := sel + Joined(words);
    assert At(c, i) == Joined(words)[i * WORD..i * WORD + WORD];
  }

  lemma UintWord(v: u64)
    ensures EncodeUint64(v) == Enc(v, WORD)
  {
    U64Fits(v);
    PadIsEnc(v);
  }

  lemma FeeIsEnc(fee: int)
    requires FeeFits(Magnitude(fee))
    ensures FeeWord(fee) == Enc(Magnitude(fee), WORD)
  {
    PadIsEnc(Magnitude(fee));
  }

  /** The selector of startBlock(uint256,uint64,uint64,uint64) and its four words. */
  lemma StartLayout(s: StartBlock)
    requires FeeFits(Magnitude(s.l1BaseFee))
    ensures var c := EncodeStartBlock(s);
            && |c| == 132 && c[..4] == [0x6b, 0xf6, 0xa4, 0x2d]
            && At(c, 0) == Enc(Magnitude(s.l1BaseFee), WORD) && At(c, 1) == Enc(s.l1Block, WORD)
            && At(c, 2) == Enc(s.l2Block, WORD) && At(c, 3) == Enc(s.timePassed, WORD)
  {
    hide Joined, EncodeUint64, FeeWord, Enc, At;
    var w := StartWords(s);
    Slot(SEL_START, w, 0);
    Slot(SEL_START, w, 1);
    Slot(SEL_START, w, 2);
    Slot(SEL_START, w, 3);
    FeeIsEnc(s.l1BaseFee);
    UintWord(s.l1Block);
    UintWord(s.l2Block);
    UintWord(s.timePassed);
  }

  lemma PosterIsPadded(poster: string) returns (a: seq<byte>)
    requires LowerAddress(poster)
    ensures |a| == 20 && EncodeHex(a) == poster && PosterWord(poster) == Zeros(12) + a
  {
    a := AddressBytes(poster);
  }

  /** The words both versions of a batch posting report share. */
  ghost predicate HeadAt(c: seq<byte>, r: Report)
    requires |c| >= 100
  {
    && At(c, 0) == Enc(r.timestamp, WORD) && At(c, 2) == Enc(r.batch, WORD)
    && exists a: seq<byte> :: |a| == 20 && EncodeHex(a) == r.poster && At(c, 1) == Zeros(12) + a
  }

  lemma ReportLayout1(r: Report)
    requires r.version == 1 && LowerAddress(r.poster) && FeeFits(Magnitude(r.l1BaseFee))
    ensures var c := EncodeReport(r);
            && |c| == 164 && c[..4] == [0xb6, 0x69, 0x37, 0x71] && HeadAt(c, r)
            && At(c, 3) == Enc(r.extraGas, WORD) && At(c, 4) == Enc(Magnitude(r.l1BaseFee), WORD)
  {
    hide Joined, EncodeUint64, FeeWord, PosterWord, Enc, At, LowerAddress;
    var w := ReportWords(r);
    Slot(SEL_V1, w, 0);
    Slot(SEL_V1, w, 1);
    Slot(SEL_V1, w, 2);
    Slot(SEL_V1, w, 3);
    Slot(SEL_V1, w, 4);
    var a := PosterIsPadded(r.poster);
    FeeIsEnc(r.l1BaseFee);
    UintWord(r.timestamp);
    UintWord(r.batch);
    UintWord(r.extraGas);
  }

  lemma ReportLayout2(r: Report)
    requires r.version == 2 && LowerAddress(r.poster) && FeeFits(Magnitude(r.l1BaseFee))
    ensures var c := EncodeReport(r);
            && |c| == 228 && c[..4] == [0x99, 0x98, 0x26, 0x9e] && HeadAt(c, r)
            && At(c, 3) == Enc(r.calldataLen, WORD) && At(c, 4) == Enc(r.calldataNonZeros, WORD)
            && At(c, 5) == Enc(r.extraGas, WORD) && At(c, 6) == Enc(Magnitude(r.l1BaseFee), WORD)
  {
    hide Joined, EncodeUint64, FeeWord, PosterWord, Enc, At, LowerAddress;
    var w := ReportWords(r);
    Slot(SEL_V2, w, 0);
    Slot(SEL_V2, w, 1);
    Slot(SEL_V2, w, 2);
    Slot(SEL_V2, w, 3);
    Slot(SEL_V2, w, 4);
    Slot(SEL_V2, w, 5);
    Slot(SEL_V2, w, 6);
    var a := PosterIsPadded(r.poster);
    FeeIsEnc(r.l1BaseFee);
    UintWord(r.timestamp);
    UintWord(r.batch);
    UintWord(r.calldataLen);
    UintWord(r.calldataNonZeros);
    UintWord(r.extraGas);
  }

  // ----- what is read -----

  predicate Long(input: seq<byte>, n: nat) { |input| >= 4 + WORD * n }

  /** An unsigned 64-bit field is there and fits. */
  predicate Field(input: seq<byte>, i: nat) { Long(input, i + 1) && Value(input, i) <= MAX_U64 }

  lemma ReadsBig(input: seq<byte>, i: nat)
    requires 4 <= |input| <= MAX_I64 && i < 8
    ensures WordBig(input[4..], i) == if Long(input, i + 1) then Ok(Value(input, i)) else Err(ShortData)
  {
    hide Word;
    WordExactly(input[4..], i);
    ShortOrNot(input[4..], i);
    if Long(input, i + 1) { assert input[4..][i * WORD..i * WORD + WORD] == At(input, i); }
  }

  lemma ShortExactly(data: seq<byte>, i: nat)
    requires |data| <= MAX_I64 && i < 8 && (i + 1) * WORD > |data|
    ensures Word(data, i) == Err(ShortData)
  {
  }

  lemma ReadsUint(input: seq<byte>, i: nat)
    requires 4 <= |input| <= MAX_I64 && i < 8
    ensures WordUint64(input[4..], i).Ok? <==> Field(input, i)
    ensures Field(input, i) ==> WordUint64(input[4..], i) == Ok(Value(input, i))
  {
    hide WordBig, Value;
    ReadsBig(input, i);
  }

  lemma ReadsAddress(input: seq<byte>, i: nat)
    requires 4 <= |input| <= MAX_I64 && i < 8
    ensures WordAddress(input[4..], i).Ok? <==> Long(input, i + 1)
    ensures Long(input, i + 1) ==> WordAddress(input[4..], i) == Ok(EncodeHex(At(input, i)[12..]))
  {
    hide Word, EncodeHex;
    WordExactly(input[4..], i);
    ShortOrNot(input[4..], i);
    if Long(input, i + 1) { assert input[4..][i * WORD..i * WORD + WORD] == At(input, i); }
  }

  lemma ShortOrNot(data: seq<byte>, i: nat)
    requires |data| <= MAX_I64 && i < 8
    ensures (i + 1) * WORD > |data| ==> Word(data, i) == Err(ShortData)
  {
    if (i + 1) * WORD > |data| { ShortExactly(data, i); }
  }

  /** A startBlock is read exactly when its selector leads four words whose last three fit 64 bits; what follows them is
      ignored. */
  lemma StartReadExactly(input: seq<byte>)
    requires |input| <= MAX_I64
    ensures var r := DecodeInternalTx(input);
            var accepted := |input| >= 4 && input[..4] == SEL_START && Long(input, 4) && Field(input, 1) && Field(input, 2) && Field(input, 3);
            && (r.Ok? && r.value.Opening? <==> accepted)
            && (accepted ==> r.value.start == StartBlock(Value(input, 0), Value(input, 1), Value(input, 2), Value(input, 3)))
  {
    hide WordBig, WordUint64, Value;
    if |input| >= 4 {
      ReadsBig(input, 0);
      ReadsUint(input, 1);
      ReadsUint(input, 2);
      ReadsUint(input, 3);
    }
  }

  predicate HeadFields(input: seq<byte>) { Long(input, 3) && Field(input, 0) && Field(input, 2) }

  lemma ReadsHead(input: seq<byte>)
    requires 4 <= |input| <= MAX_I64
    ensures DecodeHead(input[4..]).Ok? <==> HeadFields(input)
    ensures HeadFields(input) ==>
              DecodeHead(input[4..]) == Ok(Head(Value(input, 0), EncodeHex(At(input, 1)[12..]), Value(input, 2)))
  {
    hide WordUint64, WordAddress, Value, EncodeHex, At;
    ReadsUint(input, 0);
    ReadsAddress(input, 1);
    ReadsUint(input, 2);
  }

  predicate Accepts1(input: seq<byte>) { |input| >= 4 && input[..4] == SEL_V1 && HeadFields(input) && Field(input, 3) && Long(input, 5) }

  predicate Accepts2(input: seq<byte>) {
    |input| >= 4 && input[..4] == SEL_V2 && HeadFields(input) && Field(input, 3) && Field(input, 4) && Field(input, 5) && Long(input, 7)
  }

  /** A posting report of either version is read exactly when every 64-bit field fits; the poster is the low twenty bytes of
      its word, whatever the others are, and version 1 has no calldata counts. */
  lemma ReportReadExactly(input: seq<byte>)
    requires |input| <= MAX_I64
    ensures var r := DecodeInternalTx(input);
            && (r.Ok? && r.value.Posting? <==> Accepts1(input) || Accepts2(input))
            && (Accepts1(input) ==>
                  r.value.report == Report(1, Value(input, 0), EncodeHex(At(input, 1)[12..]), Value(input, 2), 0, 0,
                                           Value(input, 3), Value(input, 4)))
            && (Accepts2(input) ==>
                  r.value.report == Report(2, Value(input, 0), EncodeHex(At(input, 1)[12..]), Value(input, 2), Value(input, 3),
                                           Value(input, 4), Value(input, 5), Value(input, 6)))
  {
    hide WordBig, WordUint64, DecodeHead, Value, EncodeHex, At;
    if |input| >= 4 {
      ReadsHead(input);
      ReadsUint(input, 3);
      ReadsUint(input, 4);
      ReadsUint(input, 5);
      ReadsBig(input, 4);
      ReadsBig(input, 6);
    }
  }

  /** Everything with no known selector is some other transaction. */
  lemma OtherwiseNotInternal(input: seq<byte>)
    ensures |input| < 4 || (input[..4] != SEL_START && input[..4] != SEL_V1 && input[..4] != SEL_V2) ==>
              DecodeInternalTx(input) == Err(NotInternal)
  {
  }

  // ----- hex -----

  predicate HexDigit(c: char) { '0' <= c <= '9' || 'a' <= c <= 'f' || 'A' <= c <= 'F' }

  /** The digits of each pair, high first. */
  lemma {:induction false} NibblesExactly(s: string, n: nat)
    requires 2 * n <= |s|
    ensures Nibbles(s, n).Ok? <==> forall i :: 0 <= i < 2 * n ==> HexDigit(s[i])
    ensures Nibbles(s, n).Ok? ==> forall k :: 0 <= k < n ==> Pair(s[2 * k], s[2 * k + 1]) == Some(Nibbles(s, n).value[k])
    ensures Nibbles(s, n).Err? ==> Nibbles(s, n).error == BadHex
    decreases n
  {
    hide Pair, HexDigit;
    if n > 0 {
      NibblesExactly(s, n - 1);
      PairExactly(s[2 * n - 2], s[2 * n - 1]);
    }
  }

  lemma PairExactly(hi: char, lo: char)
    ensures Pair(hi, lo).Some? <==> HexDigit(hi) && HexDigit(lo)
  {
  }

  /** Upper and lower case are the same digit. */
  lemma CaseIrrelevant(n: nat)
    requires 10 <= n < 16
    ensures DigitValue(('a' as int + n - 10) as char) == Some(n) && DigitValue(('A' as int + n - 10) as char) == Some(n)
  {
  }
}
