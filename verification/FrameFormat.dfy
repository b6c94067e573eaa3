/**
 The TCP frame MAGIC(A5 5A) LEN PAYLOAD CRC16 and the meaning of a byte stream.

 `Scan` reads a stream one position at a time with nothing but `Classify`; it is the reference that
 the buffered parser of module FrameParser refines.
 */
module FrameFormat {
  import opened Crc

  const MAX_PAYLOAD := 240
  const BUFFER_CAPACITY := 2048
  const MAGIC_0: Byte := 0xA5
  const MAGIC_1: Byte := 0x5A

  type Payload = p: seq<Byte> | |p| <= MAX_PAYLOAD witness []

  /** A LEN byte as a number. */
  function Value(b: Byte): (n: nat)
    ensures n < 256
  {
    b as int
  }

  lemma NextByte(b: Byte)
    requires b < 255
    ensures Value(b + 1) == Value(b) + 1
  {}

  /** The byte of a number: a cast to uint8_t. */
  function ByteOf(n: nat): (b: Byte)
    requires n < 256
    ensures Value(b) == n
  {
    if n == 0 then 0 else
      NextByte(ByteOf(n - 1));
      ByteOf(n - 1) + 1
  }

  lemma ByteIsItsValue(b: Byte, c: Byte)
    requires Value(b) == Value(c)
    ensures b == c
  {}

  function LengthByte(n: nat): (b: Byte)
    requires n <= MAX_PAYLOAD
    ensures Value(b) == n
  {
    ByteOf(n)
  }

  /** LEN and PAYLOAD: the bytes the CRC covers. */
  function Body(p: Payload): seq<Byte> { [LengthByte(|p|)] + p }

  function Encode(p: Payload): (f: seq<Byte>)
    ensures |f| == |p| + 5
  {
    [MAGIC_0, MAGIC_1] + Sealed(Body(p))
  }

  // ---------------------------------------------------------------- one position of a stream

  datatype Head =
    | Waiting                  // no decision until more bytes arrive
    | Noise                    // no frame can start here
    | BadLength                // MAGIC, then a LEN above the maximum
    | BadCrc                   // a whole candidate whose CRC does not match
    | Good(payload: Payload)   // a whole frame

  /** What the first byte of `s` starts. */
  function Classify(s: seq<Byte>): Head {
    if s == [] then Waiting
    else if s[0] != MAGIC_0 then Noise
    else if |s| == 1 then Waiting
    else if s[1] != MAGIC_1 then Noise
    else if |s| < 3 then Waiting
    else
      var n := Value(s[2]);
      if n > MAX_PAYLOAD then BadLength
      else if |s| < n + 5 then Waiting
      else if Codeword(s[2..n + 5]) then Good(s[3..n + 3])
      else BadCrc
  }

  /** How many bytes a decided head takes out of the stream. */
  function Width(h: Head): nat {
    if h.Waiting? then 0 else if h.Good? then |h.payload| + 5 else 1
  }

  lemma {:induction false} CodewordOfBody(w: seq<Byte>, p: Payload)
    requires |w| == |p| + 3 && w[0] == LengthByte(|p|) && w[1..|p| + 1] == p
    ensures Codeword(w) <==> w == Sealed(Body(p))
  {
    assert w[..|w| - 2] == Body(p);
    assert w == w[..|w| - 2] + [w[|w| - 2], w[|w| - 1]];
  }

  lemma PrefixSlice<T>(f: seq<T>, s: seq<T>, i: nat, j: nat)
    requires f <= s && i <= j <= |f|
    ensures s[i..j] == f[i..j]
  {}

  lemma SliceOfSlice<T>(s: seq<T>, i: nat, j: nat, k: nat, l: nat)
    requires i <= j <= |s| && k <= l <= j - i
    ensures s[i..j][k..l] == s[i + k..i + l]
  {
    var a, b := s[i..j][k..l], s[i + k..i + l];
    assert forall m | 0 <= m < |a| :: a[m] == s[i + k + m] == b[m];
  }

  lemma SliceOfPrefix<T>(s: seq<T>, more: seq<T>, i: nat, j: nat)
    requires i <= j <= |s|
    ensures (s + more)[i..j] == s[i..j]
  {}

  lemma TakeHeader<T>(s: seq<T>, j: nat)
    requires 2 <= j <= |s|
    ensures [s[0], s[1]] + s[2..j] == s[..j]
  {
    assert s[..2] == [s[0], s[1]];
    assert s[..j] == s[..2] + s[2..j];
  }

  lemma HeaderSlices<T>(a: T, b: T, w: seq<T>, k: nat)
    requires 1 <= k <= |w|
    ensures ([a, b] + w)[2..|w| + 2] == w
    ensures ([a, b] + w)[3..k + 2] == w[1..k]
  {}

  lemma BodySlices(p: Payload)
    ensures Encode(p) == [MAGIC_0, MAGIC_1] + Sealed(Body(p))
    ensures Sealed(Body(p))[0] == LengthByte(|p|)
    ensures Sealed(Body(p))[1..|p| + 1] == p
  {
    hide Trailer, LengthByte;
  }

  /** What each verdict means, in bytes. */
  lemma VerdictsMean(s: seq<Byte>)
    ensures Classify(s) == Noise <==> (|s| > 0 && s[0] != 0xA5) || (|s| > 1 && s[0] == 0xA5 && s[1] != 0x5A)
    ensures Classify(s) == BadLength <==> |s| > 2 && s[0] == 0xA5 && s[1] == 0x5A && Value(s[2]) > 240
    ensures Classify(s) == BadCrc <==>
              && |s| > 2 && s[0] == 0xA5 && s[1] == 0x5A && Value(s[2]) <= 240 && |s| >= Value(s[2]) + 5
              && !Codeword(s[2..Value(s[2]) + 5])
    ensures Classify(s) == Waiting <==>
              || s == [] || s == [0xA5] || s == [0xA5, 0x5A]
              || (|s| > 2 && s[0] == 0xA5 && s[1] == 0x5A && Value(s[2]) <= 240 && |s| < Value(s[2]) + 5)
  {
    hide Codeword;
    if |s| == 1 { assert s == [s[0]]; }
    if |s| == 2 { assert s == [s[0], s[1]]; }
  }

  /** A frame on the wire: the two characters "hi". */
  lemma SampleFrame()
    ensures Encode([0x68, 0x69]) == [0xA5, 0x5A, 0x02, 0x68, 0x69, 0x3F, 0xEE]
  {
    var data: seq<Byte> := [0x02, 0x68, 0x69];
    ByteIsItsValue(LengthByte(2), 0x02);
    assert Body([0x68, 0x69]) == data && data[0..] == data && data[3..] == [];
    AbsorbsByte(data, 0, 0xFFFF, 0x813E);
    AbsorbsByte(data, 1, 0x813E, 0x3E01);
    AbsorbsByte(data, 2, 0x3E01, 0xEE3F);
    CrcOfNothing(Reg(0xEE3F));
    hide CrcFrom, LengthByte;
  }

  lemma EncodedIsGood(s: seq<Byte>, p: Payload)
    requires Encode(p) <= s
    ensures Classify(s) == Good(p)
  {
    hide Codeword, Sealed, Value, LengthByte, Body, Encode;
    var f, n, w := Encode(p), |p|, Sealed(Body(p));
    BodySlices(p);
    HeaderSlices(MAGIC_0, MAGIC_1, w, n + 1);
    PrefixSlice(f, s, 2, n + 5);
    PrefixSlice(f, s, 3, n + 3);
    assert s[0] == f[0] && s[1] == f[1] && s[2] == f[2] == w[0];
    CodewordOfBody(w, p);
  }

  lemma GoodMeans(s: seq<Byte>, p: Payload)
    requires Classify(s) == Good(p)
    ensures |s| >= |p| + 5 && s[0] == MAGIC_0 && s[1] == MAGIC_1 && Value(s[2]) == |p|
    ensures s[3..|p| + 3] == p && Codeword(s[2..|p| + 5])
  {
    hide Codeword;
  }

  lemma GoodIsEncoded(s: seq<Byte>, p: Payload)
    requires Classify(s) == Good(p)
    ensures Encode(p) <= s
  {
    hide Classify, Codeword, Sealed, Value, LengthByte, Body, Encode;
    GoodMeans(s, p);
    var n := |p|;
    var w := s[2..n + 5];
    ByteIsItsValue(s[2], LengthByte(n));
    SliceOfSlice(s, 2, n + 5, 1, n + 1);
    CodewordOfBody(w, p);
    BodySlices(p);
    TakeHeader(s, n + 5);
  }

  /** A stream starts with a good frame exactly when it starts with the encoding of a payload. */
  lemma GoodIffEncoded(s: seq<Byte>, p: Payload)
    ensures Classify(s) == Good(p) <==> Encode(p) <= s
  {
    if Encode(p) <= s { EncodedIsGood(s, p); }
    if Classify(s) == Good(p) { GoodIsEncoded(s, p); }
  }

  /** A decision stands whatever arrives later. */
  lemma ClassifyStable(s: seq<Byte>, more: seq<Byte>)
    requires !Classify(s).Waiting?
    ensures Classify(s + more) == Classify(s)
  {
    hide Value, Codeword;
    if |s| >= 3 && Value(s[2]) <= MAX_PAYLOAD && |s| >= Value(s[2]) + 5 {
      var n := Value(s[2]);
      SliceOfPrefix(s, more, 2, n + 5);
      SliceOfPrefix(s, more, 3, n + 3);
    }
  }

  /** An undecided head is less than one largest frame. */
  lemma WaitingIsShort(s: seq<Byte>)
    requires Classify(s).Waiting?
    ensures |s| <= MAX_PAYLOAD + 4
  {}

  lemma WidthFits(s: seq<Byte>)
    ensures Width(Classify(s)) <= |s|
    ensures !Classify(s).Waiting? ==> Width(Classify(s)) >= 1
  {}

  // ---------------------------------------------------------------- the reference scanner

  /** Counts of decided heads. */
  datatype Tally = Tally(good: nat, badCrc: nat, badLength: nat, noise: nat)

  function Add(a: Tally, b: Tally): Tally {
    Tally(a.good + b.good, a.badCrc + b.badCrc, a.badLength + b.badLength, a.noise + b.noise)
  }

  function Count(h: Head): Tally {
    Tally(if h.Good? then 1 else 0, if h.BadCrc? then 1 else 0,
          if h.BadLength? then 1 else 0, if h.Noise? then 1 else 0)
  }

  datatype Parsed = Parsed(payloads: seq<Payload>, tally: Tally, rest: seq<Byte>)

  /** What `first` found, followed by what was found after it. */
  function Join(first: Parsed, second: Parsed): Parsed {
    Parsed(first.payloads + second.payloads, Add(first.tally, second.tally), second.rest)
  }

  function Nothing(s: seq<Byte>): Parsed { Parsed([], Tally(0, 0, 0, 0), s) }

  function Found(h: Head): Parsed { Parsed(if h.Good? then [h.payload] else [], Count(h), []) }

  /** Read `s` one head at a time until a head has to wait. */
  function Scan(s: seq<Byte>): Parsed
    decreases |s|
  {
    var h := Classify(s);
    if h.Waiting? then Nothing(s)
    else
      WidthFits(s);
      Join(Found(h), Scan(s[Width(h)..]))
  }

  /** What is counted: each emitted frame, each bad CRC, each bad length and each byte of noise, once. */
  lemma ScanCounts(s: seq<Byte>)
    requires !Classify(s).Waiting?
    ensures Width(Classify(s)) <= |s|
    ensures var h, after, t := Classify(s), Scan(s[Width(Classify(s))..]).tally, Scan(s).tally;
            && t.good == after.good + (if h.Good? then 1 else 0)
            && t.badCrc == after.badCrc + (if h == BadCrc then 1 else 0)
            && t.badLength == after.badLength + (if h == BadLength then 1 else 0)
            && t.noise == after.noise + (if h == Noise then 1 else 0)
    ensures Scan(s).payloads == (if Classify(s).Good? then [Classify(s).payload] else []) + Scan(s[Width(Classify(s))..]).payloads
  {
    WidthFits(s);
    hide Classify;
  }

  lemma JoinAssociates(a: Parsed, b: Parsed, c: Parsed)
    ensures Join(Join(a, b), c) == Join(a, Join(b, c))
  {
    assert (a.payloads + b.payloads) + c.payloads == a.payloads + (b.payloads + c.payloads);
  }

  lemma JoinNothing(s: seq<Byte>, p: Parsed)
    ensures Join(Nothing(s), p) == p
  {
    assert [] + p.payloads == p.payloads;
  }

  lemma JoinNothingAfter(p: Parsed, s: seq<Byte>)
    ensures Join(p, Nothing(s)) == p.(rest := s)
  {
    assert p.payloads + [] == p.payloads;
  }

  lemma {:induction false} ScanRest(s: seq<Byte>)
    ensures Classify(Scan(s).rest).Waiting?
    ensures |Scan(s).rest| <= MAX_PAYLOAD + 4
    decreases |s|
  {
    var h := Classify(s);
    if h.Waiting? {
      WaitingIsShort(s);
    } else {
      WidthFits(s);
      ScanRest(s[Width(h)..]);
    }
  }

  /** Scanning a stream in two pieces finds what scanning it whole finds. */
  lemma {:induction false} ScanResumes(s: seq<Byte>, more: seq<Byte>)
    ensures Scan(s + more) == Join(Scan(s), Scan(Scan(s).rest + more))
    decreases |s|
  {
    var h := Classify(s);
    if h.Waiting? {
      JoinNothing(s, Scan(s + more));
    } else {
      WidthFits(s);
      ClassifyStable(s, more);
      var tail := s[Width(h)..];
      assert (s + more)[Width(h)..] == tail + more;
      ScanResumes(tail, more);
      JoinAssociates(Found(h), Scan(tail), Scan(Scan(tail).rest + more));
    }
  }

  function Flatten(chunks: seq<seq<Byte>>): seq<Byte> {
    if chunks == [] then [] else chunks[0] + Flatten(chunks[1..])
  }

  /** Feed the chunks one after the other, scanning after each. */
  function ScanChunks(rest: seq<Byte>, chunks: seq<seq<Byte>>): Parsed
    decreases |chunks|
  {
    if chunks == [] then Nothing(rest)
    else
      var now := Scan(rest + chunks[0]);
      Join(now, ScanChunks(now.rest, chunks[1..]))
  }

  /** However a stream is cut into chunks, the payloads, the counts and the bytes left over are those
      of one scan of the whole stream. */
  lemma {:induction false} ChunkingIsInvisible(rest: seq<Byte>, chunks: seq<seq<Byte>>)
    requires Classify(rest).Waiting?
    ensures ScanChunks(rest, chunks) == Scan(rest + Flatten(chunks))
    decreases |chunks|
  {
    if chunks == [] {
      assert rest + Flatten(chunks) == rest;
    } else {
      var tail := Flatten(chunks[1..]);
      assert rest + Flatten(chunks) == (rest + chunks[0]) + tail;
      ScanResumes(rest + chunks[0], tail);
      ScanRest(rest + chunks[0]);
      ChunkingIsInvisible(Scan(rest + chunks[0]).rest, chunks[1..]);
    }
  }

  /** Bytes of the frames that were emitted. */
  function FrameBytes(payloads: seq<Payload>): nat {
    if payloads == [] then 0 else |payloads[0]| + 5 + FrameBytes(payloads[1..])
  }

  function Discarded(t: Tally): nat { t.noise + t.badCrc + t.badLength }

  lemma FoundBytes(h: Head, later: Parsed)
    requires !h.Waiting?
    ensures FrameBytes(Join(Found(h), later).payloads) + Discarded(Join(Found(h), later).tally)
         == Width(h) + FrameBytes(later.payloads) + Discarded(later.tally)
    ensures Join(Found(h), later).tally.good - |Join(Found(h), later).payloads|
         == later.tally.good - |later.payloads|
    ensures Join(Found(h), later).rest == later.rest
  {
    if h.Good? {
      assert ([h.payload] + later.payloads)[1..] == later.payloads;
    } else {
      assert [] + later.payloads == later.payloads;
    }
  }

  lemma FoundFirst(h: Head, later: Parsed)
    ensures Join(Found(h), later).payloads == (if h.Good? then [h.payload] + later.payloads else later.payloads)
    ensures Join(Found(h), later).rest == later.rest
  {
    if !h.Good? { assert [] + later.payloads == later.payloads; }
  }

  /** No byte is lost or counted twice. */
  lemma {:induction false} BytesAreConserved(s: seq<Byte>)
    ensures |s| == |Scan(s).rest| + Discarded(Scan(s).tally) + FrameBytes(Scan(s).payloads)
    ensures Scan(s).tally.good == |Scan(s).payloads|
    ensures Scan(s).rest == s[|s| - |Scan(s).rest|..]
    decreases |s|
  {
    hide Classify, Discarded, FrameBytes;
    var h := Classify(s);
    if h.Waiting? {
      NothingCounts(s);
      DropNothing(s);
    } else {
      hide Join, Found;
      WidthFits(s);
      var tail := s[Width(h)..];
      BytesAreConserved(tail);
      FoundBytes(h, Scan(tail));
      DropOfDrop(s, Width(h), |tail| - |Scan(tail).rest|);
    }
  }

  lemma NothingCounts(s: seq<Byte>)
    ensures Discarded(Nothing(s).tally) == 0 && FrameBytes(Nothing(s).payloads) == 0
  {}

  lemma DropNothing<T>(s: seq<T>)
    ensures s[0..] == s
  {}

  lemma DropOfDrop<T>(s: seq<T>, i: nat, j: nat)
    requires i <= |s| && j <= |s| - i
    ensures s[i..][j..] == s[i + j..]
  {}

  // ---------------------------------------------------------------- round trip

  function EncodeAll(payloads: seq<Payload>): seq<Byte> {
    if payloads == [] then [] else Encode(payloads[0]) + EncodeAll(payloads[1..])
  }

  lemma ScanFrame(p: Payload, more: seq<Byte>)
    ensures Scan(Encode(p) + more) == Join(Found(Good(p)), Scan(more))
  {
    hide Classify, Encode, Join;
    GoodIffEncoded(Encode(p) + more, p);
    assert (Encode(p) + more)[|p| + 5..] == more;
  }

  function AllGood(payloads: seq<Payload>): Parsed { Parsed(payloads, Tally(|payloads|, 0, 0, 0), []) }

  /** Whatever follows encoded payloads, they come out first, and the rest is scanned as if it stood alone. */
  lemma {:induction false} ScanEncoded(payloads: seq<Payload>, more: seq<Byte>)
    ensures Scan(EncodeAll(payloads) + more) == Join(AllGood(payloads), Scan(more))
    decreases |payloads|
  {
    hide Classify, Encode, Scan, Join, Found, AllGood;
    if payloads == [] {
      assert EncodeAll(payloads) + more == more;
      JoinNoneGood(Scan(more));
    } else {
      var rest := payloads[1..];
      assert EncodeAll(payloads) + more == Encode(payloads[0]) + (EncodeAll(rest) + more);
      ScanFrame(payloads[0], EncodeAll(rest) + more);
      ScanEncoded(rest, more);
      JoinAssociates(Found(Good(payloads[0])), AllGood(rest), Scan(more));
      JoinFound(payloads[0], rest);
      HeadAndTail(payloads);
    }
  }

  lemma JoinNoneGood(p: Parsed)
    ensures Join(AllGood([]), p) == p
  {
    assert [] + p.payloads == p.payloads;
  }

  lemma HeadAndTail<T>(s: seq<T>)
    requires s != []
    ensures [s[0]] + s[1..] == s
  {}

  lemma ScanEmpty()
    ensures Scan([]) == Nothing([])
  {}

  lemma JoinFound(p: Payload, rest: seq<Payload>)
    ensures Join(Found(Good(p)), AllGood(rest)) == AllGood([p] + rest)
  {}

  /** Encoded payloads survive any chunking: all of them come out, in order, and nothing else. */
  lemma RoundTrip(payloads: seq<Payload>, chunks: seq<seq<Byte>>)
    requires Flatten(chunks) == EncodeAll(payloads)
    ensures ScanChunks([], chunks) == Parsed(payloads, Tally(|payloads|, 0, 0, 0), [])
  {
    ChunkingIsInvisible([], chunks);
    var stream := EncodeAll(payloads);
    assert [] + Flatten(chunks) == stream && stream + [] == stream;
    ScanEncoded(payloads, []);
    ScanEmpty();
    JoinNothingAfter(AllGood(payloads), []);
  }
}
