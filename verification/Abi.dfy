/** The hand-written ABI codecs of internal/nitro/abi.go and the constraint calldata of owneracts.go, against
    the encoding of the Solidity Contract ABI Specification, "Formal Specification of the Encoding". */
module Abi {
  import opened Words

  type byte = x: int | 0 <= x < 256

  const WORD: nat := 32

  /** A slice taken out of bounds panics; the rest are errors returned. */
  datatype Error = ShortData | Overflow | BadHex | NotInternal | Panicked

  datatype Result<+T> = Ok(value: T) | Err(error: Error)

  // ----- numbers as bytes -----

  function Pow256(n: nat): nat { if n == 0 then 1 else 256 * Pow256(n - 1) }

  /** The minimal big-endian bytes of a number; zero has none. */
  function Bytes(v: nat): seq<byte> { if v == 0 then [] else Bytes(v / 256) + [v % 256] }

  function SetBytes(b: seq<byte>): nat
    decreases |b|
  {
    if b == [] then 0 else SetBytes(b[..|b| - 1]) * 256 + b[|b| - 1]
  }

  function Zeros(n: nat): (r: seq<byte>)
    ensures |r| == n && forall i :: 0 <= i < n ==> r[i] == 0
  {
    seq(n, _ => 0)
  }

  function PadWord(b: seq<byte>): (r: seq<byte>)
    ensures |r| == WORD
  {
    if |b| >= WORD then b[|b| - WORD..] else Zeros(WORD - |b|) + b
  }

  function EncodeUint64(v: u64): (r: seq<byte>)
    ensures |r| == WORD
  {
    PadWord(Bytes(v))
  }

  /** enc(X) of an unsigned integer: its big-endian form in a fixed number of bytes, high zeros included. */
  function Enc(v: nat, n: nat): (r: seq<byte>)
    ensures |r| == n
    decreases n
  {
    if n == 0 then [] else Enc(v / 256, n - 1) + [v % 256]
  }

  lemma {:induction false} SetBytesOfBytes(v: nat)
    ensures SetBytes(Bytes(v)) == v
  {
    if v > 0 {
      SetBytesOfBytes(v / 256);
      var b := Bytes(v / 256) + [v % 256];
      assert b[..|b| - 1] == Bytes(v / 256);
    }
  }

  lemma {:induction false} LeadingZeros(n: nat, b: seq<byte>)
    ensures SetBytes(Zeros(n) + b) == SetBytes(b)
    decreases |b| + n
  {
    var s := Zeros(n) + b;
    if b != [] {
      assert s[..|s| - 1] == Zeros(n) + b[..|b| - 1];
      LeadingZeros(n, b[..|b| - 1]);
    } else if n > 0 {
      assert s[..|s| - 1] == Zeros(n - 1) + b;
      LeadingZeros(n - 1, b);
    }
  }

  lemma {:induction false} BytesFit(v: nat, n: nat)
    requires v < Pow256(n)
    ensures |Bytes(v)| <= n
    decreases n
  {
    if v > 0 { BytesFit(v / 256, n - 1); }
  }

  lemma {:induction false} BytesBelow(b: seq<byte>)
    ensures SetBytes(b) < Pow256(|b|)
    decreases |b|
  {
    if b != [] { BytesBelow(b[..|b| - 1]); }
  }

  lemma {:induction false} PowGrows(a: nat, b: nat)
    requires a <= b
    ensures Pow256(a) <= Pow256(b)
    decreases b
  {
    if a < b { PowGrows(a, b - 1); }
  }

  lemma U64Fits(v: u64)
    ensures v < Pow256(WORD)
  {
    assert Pow256(2) == 0x1_0000;
    assert Pow256(4) == 0x1_0000_0000;
    assert Pow256(6) == 0x1_0000_0000_0000;
    assert Pow256(8) == TWO_64;
    PowGrows(8, WORD);
  }

  /** Padding a number that fits and reading it back. */
  lemma PadRoundTrip(v: nat)
    requires v < Pow256(WORD)
    ensures SetBytes(PadWord(Bytes(v))) == v
  {
    BytesFit(v, WORD);
    SetBytesOfBytes(v);
    var b := Bytes(v);
    if |b| == WORD {
      assert b[|b| - WORD..] == b;
    } else {
      LeadingZeros(WORD - |b|, b);
    }
  }

  /** Two byte strings of one length with one value are the same. */
  lemma {:induction false} SameBytes(a: seq<byte>, b: seq<byte>)
    requires |a| == |b| && SetBytes(a) == SetBytes(b)
    ensures a == b
    decreases |a|
  {
    if a != [] {
      var x, y := SetBytes(a[..|a| - 1]), SetBytes(b[..|b| - 1]);
      assert x * 256 + a[|a| - 1] == y * 256 + b[|b| - 1];
      LastDigit(x, y, a[|a| - 1], b[|b| - 1]);
      SameBytes(a[..|a| - 1], b[..|b| - 1]);
      assert a == a[..|a| - 1] + [a[|a| - 1]];
      assert b == b[..|b| - 1] + [b[|b| - 1]];
    }
  }

  lemma LastDigit(x: nat, y: nat, a: byte, b: byte)
    requires x * 256 + a == y * 256 + b
    ensures x == y && a == b
  {
  }

  lemma {:induction false} EncValue(v: nat, n: nat)
    requires v < Pow256(n)
    ensures SetBytes(Enc(v, n)) == v
    decreases n
  {
    if n > 0 {
      EncValue(v / 256, n - 1);
      var b := Enc(v, n);
      assert b[..|b| - 1] == Enc(v / 256, n - 1);
    }
  }

  /** The encoder's words are the specification's. */
  lemma PadIsEnc(v: nat)
    requires v < Pow256(WORD)
    ensures PadWord(Bytes(v)) == Enc(v, WORD)
  {
    PadRoundTrip(v);
    EncValue(v, WORD);
    SameBytes(PadWord(Bytes(v)), Enc(v, WORD));
  }

  // ----- words -----

  /** The index arithmetic is that of a signed 64-bit integer: the bound is tested on a sum that may wrap. */
  function Word(data: seq<byte>, i: nat): (r: Result<seq<byte>>)
    ensures r.Ok? ==> |r.value| == WORD
  {
    var start := WrapI64(i * WORD);
    if start < 0 || WrapI64(start + WORD) > |data| then Err(ShortData)
    else if start + WORD > |data| then Err(Panicked)
    else Ok(data[start..start + WORD])
  }

  /** The one index below 2^59 whose end is past the largest signed integer while its start is not. */
  const WRAPPING_INDEX: nat := 0x3FF_FFFF_FFFF_FFFF

  /** Exactly when a word is read, refused, or read out of bounds. */
  lemma WordExactly(data: seq<byte>, i: nat)
    requires |data| <= MAX_I64 && i < 0x800_0000_0000_0000
    ensures Word(data, i).Ok? <==> (i + 1) * WORD <= |data|
    ensures Word(data, i).Ok? ==> Word(data, i).value == data[i * WORD..i * WORD + WORD]
    ensures Word(data, i) == Err(Panicked) <==> i == WRAPPING_INDEX
  {
    if i * WORD <= MAX_I64 {
      assert WrapI64(i * WORD) == i * WORD;
    } else {
      assert WrapI64(i * WORD) == i * WORD - TWO_64;
    }
  }

  function WordBig(data: seq<byte>, i: nat): (r: Result<nat>)
    ensures r.Ok? ==> r.value < Pow256(WORD)
  {
    match Word(data, i)
    case Err(e) => Err(e)
    case Ok(w) => BytesBelow(w); Ok(SetBytes(w))
  }

  function WordUint64(data: seq<byte>, i: nat): Result<u64> {
    match WordBig(data, i)
    case Err(e) => Err(e)
    case Ok(v) => if v > MAX_U64 then Err(Overflow) else Ok(v)
  }

  /** Words laid end to end are found at their places. */
  function Joined(words: seq<seq<byte>>): seq<byte>
    decreases |words|
  {
    if words == [] then [] else Joined(words[..|words| - 1]) + words[|words| - 1]
  }

  ghost predicate Whole(words: seq<seq<byte>>) { forall i :: 0 <= i < |words| ==> |words[i]| == WORD }

  lemma {:induction false} JoinedLength(words: seq<seq<byte>>)
    requires Whole(words)
    ensures |Joined(words)| == WORD * |words|
    decreases |words|
  {
    if words != [] { JoinedLength(words[..|words| - 1]); }
  }

  lemma {:induction false} SliceAt(words: seq<seq<byte>>, i: nat)
    requires Whole(words) && i < |words|
    ensures |Joined(words)| == WORD * |words| && Joined(words)[i * WORD..i * WORD + WORD] == words[i]
    decreases |words|
  {
    var front, last := words[..|words| - 1], words[|words| - 1];
    JoinedLength(words);
    JoinedLength(front);
    if i < |front| {
      SliceAt(front, i);
      assert Joined(words)[i * WORD..i * WORD + WORD] == Joined(front)[i * WORD..i * WORD + WORD];
    } else {
      assert Joined(words)[i * WORD..i * WORD + WORD] == last;
    }
  }

  lemma WordAt(words: seq<seq<byte>>, i: nat)
    requires Whole(words) && i < |words| && WORD * |words| <= MAX_I64
    ensures Word(Joined(words), i) == Ok(words[i])
  {
    SliceAt(words, i);
    hide Joined, Word;
    WordExactly(Joined(words), i);
  }

  lemma Uint64At(words: seq<seq<byte>>, i: nat, v: u64)
    requires Whole(words) && i < |words| && WORD * |words| <= MAX_I64 && words[i] == EncodeUint64(v)
    ensures WordUint64(Joined(words), i) == Ok(v)
  {
    WordAt(words, i);
    U64Fits(v);
    PadRoundTrip(v);
  }

  // ----- setGasPricingConstraints(uint64[3][]) -----

  datatype Constraint = Constraint(target: u64, window: u64, backlog: u64)

  /** The calldata of the list is no longer than a slice can be. */
  predicate Sized(cs: seq<Constraint>) { 4 + WORD * (2 + 3 * |cs|) <= MAX_I64 }

  /** The first four bytes of the Keccak-256 of the signature. */
  const SEL_SET_CONSTRAINTS: seq<byte> := [0xcc, 0x0d, 0x55, 0x6a]

  /** The body: the array's offset, its length, then three words an element. */
  function ConstraintWords(cs: seq<Constraint>): (r: seq<seq<byte>>)
    ensures |r| == 3 * |cs| && Whole(r)
    ensures forall i :: 0 <= i < |cs| ==>
              && r[3 * i] == EncodeUint64(cs[i].target)
              && r[3 * i + 1] == EncodeUint64(cs[i].window)
              && r[3 * i + 2] == EncodeUint64(cs[i].backlog)
    decreases |cs|
  {
    if cs == [] then []
    else
      var c := cs[|cs| - 1];
      ConstraintWords(cs[..|cs| - 1]) + [EncodeUint64(c.target), EncodeUint64(c.window), EncodeUint64(c.backlog)]
  }

  function BodyWords(cs: seq<Constraint>): (r: seq<seq<byte>>)
    requires Sized(cs)
    ensures |r| == 2 + 3 * |cs| && Whole(r)
  {
    [EncodeUint64(WORD), EncodeUint64(|cs|)] + ConstraintWords(cs)
  }

  method EncodeSetGasPricingConstraints(cs: seq<Constraint>) returns (out: seq<byte>)
    requires Sized(cs)
    ensures out == SEL_SET_CONSTRAINTS + Joined(BodyWords(cs))
  {
    hide Joined, EncodeUint64, ConstraintWords;
    ghost var words := [EncodeUint64(WORD), EncodeUint64(|cs|)];
    out := SEL_SET_CONSTRAINTS;
    out := out + EncodeUint64(WORD);
    out := out + EncodeUint64(|cs|);
    HeadJoined(EncodeUint64(WORD), EncodeUint64(|cs|));
    NoConstraints(words, cs);
    var i := 0;
    while i < |cs|
      invariant 0 <= i <= |cs| && out == SEL_SET_CONSTRAINTS + Joined(words + ConstraintWords(cs[..i]))
    {
      out := EncodeOne(out, cs[i]);
      MoreConstraints(words, cs, i);
      i := i + 1;
    }
    assert cs[..i] == cs;
  }

  lemma HeadJoined(a: seq<byte>, b: seq<byte>)
    ensures Joined([a, b]) == a + b
  {
    assert [a, b] == [] + [a] + [b];
    JoinMore([] + [a], b);
    JoinMore([], a);
    assert [] + a == a;
  }

  lemma NoConstraints(words: seq<seq<byte>>, cs: seq<Constraint>)
    ensures words + ConstraintWords(cs[..0]) == words
  {
    assert cs[..0] == [];
  }

  method EncodeOne(prefix: seq<byte>, c: Constraint) returns (out: seq<byte>)
    ensures out == prefix + (EncodeUint64(c.target) + EncodeUint64(c.window) + EncodeUint64(c.backlog))
  {
    out := prefix + EncodeUint64(c.target);
    out := out + EncodeUint64(c.window);
    out := out + EncodeUint64(c.backlog);
  }

  lemma JoinMore(words: seq<seq<byte>>, w: seq<byte>)
    ensures Joined(words + [w]) == Joined(words) + w
  {
    assert (words + [w])[..|words|] == words;
  }

  lemma MoreConstraints(words: seq<seq<byte>>, cs: seq<Constraint>, i: nat)
    requires i < |cs|
    ensures Joined(words + ConstraintWords(cs[..i + 1])) ==
            Joined(words + ConstraintWords(cs[..i])) + (EncodeUint64(cs[i].target) + EncodeUint64(cs[i].window) + EncodeUint64(cs[i].backlog))
  {
    var c, before := cs[i], words + ConstraintWords(cs[..i]);
    var a, b, d := EncodeUint64(c.target), EncodeUint64(c.window), EncodeUint64(c.backlog);
    assert cs[..i + 1][..i] == cs[..i];
    assert words + ConstraintWords(cs[..i + 1]) == before + [a] + [b] + [d];
    JoinMore(before, a);
    JoinMore(before + [a], b);
    JoinMore(before + [a] + [b], d);
  }

  // ----- decoding it -----

  /** A triple read from three consecutive words, the first error winning. */
  function Triple(data: seq<byte>, at: nat): Result<Constraint> {
    match WordUint64(data, at)
    case Err(e) => Err(e)
    case Ok(a) =>
      match WordUint64(data, at + 1)
      case Err(e) => Err(e)
      case Ok(b) =>
        match WordUint64(data, at + 2)
        case Err(e) => Err(e)
        case Ok(c) => Ok(Constraint(a, b, c))
  }

  function Triples(data: seq<byte>, at: nat, n: nat): (r: Result<seq<Constraint>>)
    ensures r.Ok? ==> |r.value| == n
    decreases n
  {
    if n == 0 then Ok([])
    else
      match Triples(data, at, n - 1)
      case Err(e) => Err(e)
      case Ok(front) =>
        match Triple(data, at + 3 * (n - 1))
        case Err(e) => Err(e)
        case Ok(c) => Ok(front + [c])
  }

  function Uint64Triples(data: seq<byte>): Result<seq<Constraint>> {
    match WordUint64(data, 0)
    case Err(e) => Err(e)
    case Ok(offset) =>
      if offset % WORD != 0 then Err(ShortData)
      else
        match WordUint64(data, offset / WORD)
        case Err(e) => Err(e)
        case Ok(length) =>
          if length > |data| / WORD then Err(ShortData) else Triples(data, offset / WORD + 1, length)
  }

  /** The decoder's own loops. */
  method DecodeTriples(data: seq<byte>) returns (r: Result<seq<Constraint>>)
    ensures r == Uint64Triples(data)
  {
    hide Triples, Triple;
    var offset := WordUint64(data, 0);
    if offset.Err? { return Err(offset.error); }
    if offset.value % WORD != 0 { return Err(ShortData); }
    var base := offset.value / WORD;
    var length := WordUint64(data, base);
    if length.Err? { return Err(length.error); }
    if length.value > |data| / WORD { return Err(ShortData); }
    r := ReadTriples(data, base + 1, length.value);
  }

  method ReadTriples(data: seq<byte>, at: nat, length: nat) returns (r: Result<seq<Constraint>>)
    ensures r == Triples(data, at, length)
  {
    hide WordUint64;
    var out: seq<Constraint> := [];
    var n := 0;
    while n < length
      invariant 0 <= n <= length && Triples(data, at, n) == Ok(out)
    {
      var t: seq<u64> := [];
      while |t| < 3
        invariant |t| <= 3
        invariant forall k :: 0 <= k < |t| ==> WordUint64(data, at + 3 * n + k) == Ok(t[k])
      {
        var v := WordUint64(data, at + 3 * n + |t|);
        if v.Err? {
          assert Triple(data, at + 3 * n) == Err(v.error) by { FirstError(data, at + 3 * n, t, v.error); }
          ErrorStays(data, at, n, length, v.error);
          return Err(v.error);
        }
        t := t + [v.value];
      }
      assert WordUint64(data, at + 3 * n + 0) == Ok(t[0]);
      out := out + [Constraint(t[0], t[1], t[2])];
      n := n + 1;
    }
    r := Ok(out);
  }

  lemma FirstError(data: seq<byte>, at: nat, t: seq<u64>, e: Error)
    requires |t| < 3 && WordUint64(data, at + |t|) == Err(e)
    requires forall k :: 0 <= k < |t| ==> WordUint64(data, at + k) == Ok(t[k])
    ensures Triple(data, at) == Err(e)
  {
    hide WordUint64;
    if |t| > 0 { assert WordUint64(data, at + 0) == Ok(t[0]); }
    if |t| > 1 { assert WordUint64(data, at + 1) == Ok(t[1]); }
    assert at + 0 == at;
  }

  lemma {:induction false} ErrorStays(data: seq<byte>, at: nat, n: nat, length: nat, e: Error)
    requires n < length && Triples(data, at, n).Ok? && Triple(data, at + 3 * n) == Err(e)
    ensures Triples(data, at, length) == Err(e)
    decreases length
  {
    hide Triple;
    if n < length - 1 { ErrorStays(data, at, n, length - 1, e); }
  }

  lemma {:induction false} TriplesInBounds(data: seq<byte>, at: nat, n: nat)
    requires |data| < 0x4000_0000_0000_0000 && at * WORD <= |data|
    ensures Triples(data, at, n) != Err(Panicked)
    ensures Triples(data, at, n).Ok? ==> (at + 3 * n) * WORD <= |data|
    decreases n
  {
    hide Word;
    if n > 0 {
      TriplesInBounds(data, at, n - 1);
      if Triples(data, at, n - 1).Ok? {
        var i := at + 3 * (n - 1);
        WordExactly(data, i);
        WordExactly(data, i + 1);
        WordExactly(data, i + 2);
      }
    }
  }

  const WRAPPING_OFFSET: u64 := 0x7FFF_FFFF_FFFF_FFE0

  /** The decoder reads out of bounds if and only if the array's offset is 2^63 - 32; every other calldata decodes or
      is refused with an error. */
  lemma TriplesPanicExactlyWhen(data: seq<byte>)
    requires |data| < 0x4000_0000_0000_0000
    ensures Uint64Triples(data) == Err(Panicked) <==> WordUint64(data, 0) == Ok(WRAPPING_OFFSET)
  {
    hide Word, Triples;
    WordExactly(data, 0);
    var offset := WordUint64(data, 0);
    if offset.Ok? && offset.value % WORD == 0 {
      var base := offset.value / WORD;
      WordExactly(data, base);
      var length := WordUint64(data, base);
      if length.Ok? { TriplesInBounds(data, base + 1, length.value); }
    }
  }

  /** What a caller gets for any calldata: constraints only for this call, an error when its arguments do
      not decode, and nothing for calldata of another call. */
  function DecodeOwnerCalldata(calldata: seq<byte>): Result<Option<seq<Constraint>>> {
    if |calldata| < 4 || calldata[..4] != SEL_SET_CONSTRAINTS then Ok(None)
    else
      match Uint64Triples(calldata[4..])
      case Err(e) => Err(e)
      case Ok(cs) => Ok(Some(cs))
  }

  lemma {:induction false} TriplesRead(cs: seq<Constraint>, n: nat)
    requires Sized(cs) && n <= |cs|
    ensures Triples(Joined(BodyWords(cs)), 2, n) == Ok(cs[..n])
    decreases n
  {
    hide Joined, WordUint64, EncodeUint64;
    if n > 0 {
      TriplesRead(cs, n - 1);
      var words, c, at := BodyWords(cs), cs[n - 1], 2 + 3 * (n - 1);
      ElementWords(cs, n - 1);
      Uint64At(words, at, c.target);
      Uint64At(words, at + 1, c.window);
      Uint64At(words, at + 2, c.backlog);
      assert cs[..n] == cs[..n - 1] + [c];
    }
  }

  /** Decoding undoes encoding for every list of constraints. */
  lemma ConstraintsRoundTrip(cs: seq<Constraint>)
    requires Sized(cs)
    ensures DecodeOwnerCalldata(SEL_SET_CONSTRAINTS + Joined(BodyWords(cs))) == Ok(Some(cs))
  {
    hide Joined, WordUint64, EncodeUint64, Triples;
    var words := BodyWords(cs);
    var body := Joined(words);
    var calldata := SEL_SET_CONSTRAINTS + body;
    assert calldata[..4] == SEL_SET_CONSTRAINTS && calldata[4..] == body;
    JoinedLength(words);
    Uint64At(words, 0, WORD);
    Uint64At(words, 1, |cs|);
    TriplesRead(cs, |cs|);
    assert cs[..|cs|] == cs;
  }

  /** The layout: the offset of the array, its length, then the elements in place, each word as the
      specification writes it. */
  lemma ConstraintsLayout(cs: seq<Constraint>, i: nat)
    requires Sized(cs) && i < |cs|
    ensures var body := Joined(BodyWords(cs));
            && |body| == WORD * (2 + 3 * |cs|)
            && Word(body, 0) == Ok(Enc(WORD, WORD)) && Word(body, 1) == Ok(Enc(|cs|, WORD))
            && Word(body, 2 + 3 * i) == Ok(Enc(cs[i].target, WORD))
            && Word(body, 2 + 3 * i + 1) == Ok(Enc(cs[i].window, WORD))
            && Word(body, 2 + 3 * i + 2) == Ok(Enc(cs[i].backlog, WORD))
  {
    hide Joined, Word, Enc, BodyWords, EncodeUint64;
    var words := BodyWords(cs);
    JoinedLength(words);
    HeadWords(cs);
    ElementWords(cs, i);
    EncAt(words, 0, WORD);
    EncAt(words, 1, |cs|);
    EncAt(words, 2 + 3 * i, cs[i].target);
    EncAt(words, 2 + 3 * i + 1, cs[i].window);
    EncAt(words, 2 + 3 * i + 2, cs[i].backlog);
  }

  lemma HeadWords(cs: seq<Constraint>)
    requires Sized(cs)
    ensures BodyWords(cs)[0] == EncodeUint64(WORD) && BodyWords(cs)[1] == EncodeUint64(|cs|)
  {
  }

  lemma ElementWords(cs: seq<Constraint>, i: nat)
    requires Sized(cs) && i < |cs|
    ensures var words := BodyWords(cs);
            && words[2 + 3 * i] == EncodeUint64(cs[i].target)
            && words[2 + 3 * i + 1] == EncodeUint64(cs[i].window)
            && words[2 + 3 * i + 2] == EncodeUint64(cs[i].backlog)
  {
    hide ConstraintWords, EncodeUint64;
    var c := ConstraintWords(cs);
    assert c[3 * i] == EncodeUint64(cs[i].target);
  }

  lemma EncAt(words: seq<seq<byte>>, i: nat, v: u64)
    requires Whole(words) && i < |words| && WORD * |words| <= MAX_I64 && words[i] == EncodeUint64(v)
    ensures Word(Joined(words), i) == Ok(Enc(v, WORD))
  {
    WordAt(words, i);
    U64Fits(v);
    PadIsEnc(v);
  }
}
