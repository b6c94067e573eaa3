/**
 The incremental parser of modules/protocol/frame.c over its fixed 2048-byte buffer, and the encoder.
 Every method is proved against the reference scanner of module FrameFormat.
 */
module FrameParser {
  import opened Crc
  import opened FrameFormat

  datatype FrameResult = Invalid | NeedMore | Ready

  datatype Stats = Stats(
    frameOk: nat, badCrc: nat, invalidLengths: nat, noiseBytes: nat, bufferOverflows: nat)
  {
    function Tally(): Tally { FrameFormat.Tally(frameOk, badCrc, invalidLengths, noiseBytes) }
  }

  /** Each counter of the parser is the one of the scan that counts the same thing. */
  lemma CountersMatch(st: Stats)
    ensures st.Tally().good == st.frameOk && st.Tally().badCrc == st.badCrc
    ensures st.Tally().badLength == st.invalidLengths && st.Tally().noise == st.noiseBytes
  {}

  /** Noise is skipped a run at a time; the scanner skips it byte by byte. */
  lemma {:induction false} NoiseRun(s: seq<Byte>, d: nat)
    requires d <= |s| && forall i | 0 <= i < d :: Classify(s[i..]).Noise?
    ensures Scan(s) == Join(Parsed([], Tally(0, 0, 0, d), []), Scan(s[d..]))
    decreases d
  {
    hide Classify;
    if d == 0 {
      assert s[0..] == s;
      JoinNothing([], Scan(s));
    } else {
      var tail := s[1..];
      assert s[0..] == s;
      forall i | 0 <= i < d - 1 ensures Classify(tail[i..]).Noise? {
        assert tail[i..] == s[i + 1..];
      }
      NoiseRun(tail, d - 1);
      assert tail[d - 1..] == s[d..];
      JoinAssociates(Found(Noise), Parsed([], Tally(0, 0, 0, d - 1), []), Scan(s[d..]));
    }
  }

  lemma NoMagicIsNoise(s: seq<Byte>, i: nat)
    requires i < |s| && (s[i] != MAGIC_0 || (i + 1 < |s| && s[i + 1] != MAGIC_1))
    ensures Classify(s[i..]).Noise?
  {}

  class Parser {
    const buffer: array<Byte>
    var size: nat
    var stats: Stats

    ghost predicate Valid()
      reads this
    {
      buffer.Length == BUFFER_CAPACITY && size <= BUFFER_CAPACITY
    }

    /** The bytes not yet parsed. */
    ghost function Pending(): seq<Byte>
      requires Valid()
      reads this, buffer
    {
      buffer[..size]
    }

    constructor ()
      ensures Valid() && fresh(buffer)
      ensures Pending() == [] && stats == Stats(0, 0, 0, 0, 0)
    {
      buffer := new Byte[BUFFER_CAPACITY];
      size := 0;
      stats := Stats(0, 0, 0, 0, 0);
    }

    method Feed(bytes: seq<Byte>) returns (result: FrameResult)
      requires Valid()
      modifies this, buffer
      ensures Valid()
      ensures result == if |old(Pending())| + |bytes| <= 2048 then Ready else Invalid
      ensures result == Ready ==> Pending() == old(Pending()) + bytes && stats == old(stats)
      ensures result == Invalid ==>
                && Pending() == old(Pending())
                && stats == old(stats).(bufferOverflows := old(stats).bufferOverflows + 1)
    {
      if |bytes| > BUFFER_CAPACITY - size {
        stats := stats.(bufferOverflows := stats.bufferOverflows + 1);
        return Invalid;
      }
      forall i | 0 <= i < |bytes| { buffer[size + i] := bytes[i]; }
      size := size + |bytes|;
      return Ready;
    }

    /** frame_discard_prefix: move the remaining bytes to the front. */
    method DiscardPrefix(discard: nat)
      requires Valid() && discard <= size
      modifies this`size, buffer
      ensures Valid()
      ensures Pending() == old(Pending())[discard..]
    {
      var remaining := size - discard;
      forall i | 0 <= i < remaining { buffer[i] := buffer[discard + i]; }
      size := remaining;
    }

    /** frame_find_magic: everything before `discard` is noise. */
    method FindMagic() returns (found: bool, discard: nat)
      requires Valid()
      ensures discard <= size
      ensures forall i | 0 <= i < discard :: Classify(Pending()[i..]).Noise?
      ensures found ==> discard + 1 < size && buffer[discard] == MAGIC_0 && buffer[discard + 1] == MAGIC_1
      ensures !found ==> Classify(Pending()[discard..]).Waiting?
    {
      hide Classify;
      if size == 0 {
        WaitingWithoutMagic(Pending(), 0);
        return false, 0;
      }
      var i := 0;
      while i + 1 < size
        invariant i < size
        invariant forall j | 0 <= j < i :: Classify(Pending()[j..]).Noise?
      {
        if buffer[i] == MAGIC_0 && buffer[i + 1] == MAGIC_1 {
          return true, i;
        }
        NoMagicIsNoise(Pending(), i);
        i := i + 1;
      }
      if buffer[size - 1] == MAGIC_0 {
        WaitingWithoutMagic(Pending(), i);
        return false, size - 1;
      } else {
        NoMagicIsNoise(Pending(), i);
        WaitingWithoutMagic(Pending(), size);
        return false, size;
      }
    }

    /** frame_check_size on a buffer that starts with MAGIC. */
    method CheckSize() returns (result: FrameResult, frameSize: nat)
      requires Valid() && size >= 2
      ensures result == Invalid <==> size >= 3 && Value(buffer[2]) > MAX_PAYLOAD
      ensures result == Ready <==> size >= 3 && Value(buffer[2]) <= MAX_PAYLOAD && size >= Value(buffer[2]) + 5
      ensures result == Ready ==> frameSize == Value(buffer[2]) + 5
    {
      if size < 3 {
        return NeedMore, 0;
      }
      var payloadSize := Value(buffer[2]);
      if payloadSize > MAX_PAYLOAD {
        return Invalid, 0;
      }
      frameSize := 3 + payloadSize + 2;
      return if size < frameSize then NeedMore else Ready, frameSize;
    }

    /** frame_check_crc: compare the received trailer with the CRC of LEN and PAYLOAD. */
    method CheckCrc(frameSize: nat) returns (ok: bool)
      requires Valid() && 5 <= frameSize <= size
      ensures ok <==> Codeword(buffer[2..frameSize])
    {
      hide Crc16, Lo, Hi;
      var crcOffset := frameSize - 2;
      var calculated := ComputeCrc(buffer, 2, frameSize - 4);
      var received := (buffer[crcOffset] as bv16) | ((buffer[crcOffset + 1] as bv16) << 8);
      ok := calculated.v == received;
      WordFromBytes(calculated, buffer[crcOffset], buffer[crcOffset + 1]);
      ghost var w := buffer[2..frameSize];
      assert w[..|w| - 2] == buffer[2..2 + (frameSize - 4)];
    }

    /** The first part of frame_parser_next: search for MAGIC and drop the noise before it. */
    method SkipNoise() returns (magic: bool, ghost found: Parsed)
      requires Valid()
      modifies this, buffer
      ensures Valid() && size <= old(size)
      ensures Scan(old(Pending())) == Join(found, Scan(Pending()))
      ensures found == Parsed([], Tally(0, 0, 0, old(size) - size), [])
      ensures stats == old(stats).(noiseBytes := old(stats).noiseBytes + old(size) - size)
      ensures magic ==> size >= 2 && buffer[0] == MAGIC_0 && buffer[1] == MAGIC_1
      ensures !magic ==> Classify(Pending()).Waiting?
    {
      hide Classify, Scan;
      ghost var s0 := Pending();
      var discard;
      magic, discard := FindMagic();
      assert Pending() == s0;
      NoiseRun(s0, discard);
      stats := stats.(noiseBytes := stats.noiseBytes + discard);
      DiscardPrefix(discard);
      found := Parsed([], Tally(0, 0, 0, discard), []);
    }

    method CopyPayload(payload: array<Byte>, n: nat)
      requires Valid() && n <= payload.Length && n + 3 <= size && payload != buffer
      modifies payload
      ensures payload[..n] == buffer[3..n + 3]
      ensures payload[n..] == old(payload[..])[n..]
    {
      forall i | 0 <= i < n { payload[i] := buffer[3 + i]; }
    }

    /** The rest of frame_parser_next: LEN, CRC and payload of a buffer that starts with MAGIC. */
    method TakeHead(payload: array<Byte>) returns (result: FrameResult, payloadSize: nat, ghost h: Head)
      requires Valid() && payload.Length >= MAX_PAYLOAD && payload != buffer
      requires size >= 2 && buffer[0] == MAGIC_0 && buffer[1] == MAGIC_1
      modifies this, buffer, payload
      ensures Valid() && payloadSize <= MAX_PAYLOAD
      ensures h == Classify(old(Pending())) && !h.Noise? && Width(h) <= old(size)
      ensures Pending() == old(Pending())[Width(h)..]
      ensures stats.Tally() == Add(old(stats).Tally(), Count(h))
      ensures stats.bufferOverflows == old(stats).bufferOverflows
      ensures result == if h.Good? then Ready else if h.Waiting? then NeedMore else Invalid
      ensures h.Good? ==> payload[..payloadSize] == h.payload
      ensures !h.Good? ==> payload[..] == old(payload[..])
      ensures payload[payloadSize..] == old(payload[..])[payloadSize..]
    {
      hide Classify, Codeword, Value;
      ghost var s := Pending();
      h := Classify(s);
      MagicHead(s);
      var frameSize;
      result, frameSize := CheckSize();
      if result == Invalid {
        stats := stats.(invalidLengths := stats.invalidLengths + 1);
        DiscardPrefix(1);
        return Invalid, 0, h;
      } else if result == NeedMore {
        return NeedMore, 0, h;
      }
      assert s[2..frameSize] == buffer[2..frameSize];
      var crcOk := CheckCrc(frameSize);
      if !crcOk {
        stats := stats.(badCrc := stats.badCrc + 1);
        DiscardPrefix(1);
        return Invalid, 0, h;
      }
      payloadSize := Value(buffer[2]);
      CopyPayload(payload, payloadSize);
      SliceOfTake(buffer[..], size, 3, payloadSize + 3);
      stats := stats.(frameOk := stats.frameOk + 1);
      DiscardPrefix(frameSize);
      return Ready, payloadSize, h;
    }

    /** frame_parser_next. `found` is what this call took out of the stream. */
    method Next(payload: array<Byte>) returns (result: FrameResult, payloadSize: nat, ghost found: Parsed)
      requires Valid() && payload.Length >= MAX_PAYLOAD && payload != buffer
      modifies this, buffer, payload
      ensures Valid() && payloadSize <= MAX_PAYLOAD
      ensures Scan(old(Pending())) == Join(found, Scan(Pending()))
      ensures stats.Tally() == Add(old(stats).Tally(), found.tally)
      ensures stats.bufferOverflows == old(stats).bufferOverflows
      ensures found.payloads == if result == Ready then [payload[..payloadSize]] else []
      ensures result == NeedMore ==> Classify(Pending()).Waiting?
      ensures result != NeedMore ==> |Pending()| < |old(Pending())|
      ensures found.tally.good == (if result == Ready then 1 else 0)
      ensures found.tally.badCrc + found.tally.badLength == (if result == Invalid then 1 else 0)
      ensures result != Ready ==> payload[..] == old(payload[..])
      ensures payload[payloadSize..] == old(payload[..])[payloadSize..]
    {
      hide Classify, Scan, Join;
      ghost var s0, p0 := Pending(), payload[..];
      var magic, skipped := SkipNoise();
      assert payload[..] == p0;
      if !magic {
        return NeedMore, 0, skipped;
      }
      ghost var s1 := Pending();
      ghost var h;
      result, payloadSize, h := TakeHead(payload);
      if h.Waiting? {
        found := skipped;
        assert Pending() == s1;
      } else {
        found := Step(s0, skipped, s1);
      }
    }

    /** The documented receive loop: call Next until it needs more bytes. */
    method Drain(payload: array<Byte>) returns (payloads: seq<Payload>, ghost found: Parsed)
      requires Valid() && payload.Length >= MAX_PAYLOAD && payload != buffer
      modifies this, buffer, payload
      ensures Valid()
      ensures found == Scan(old(Pending()))
      ensures payloads == found.payloads && Pending() == found.rest
      ensures stats.Tally() == Add(old(stats).Tally(), found.tally)
      ensures stats.bufferOverflows == old(stats).bufferOverflows
    {
      hide Classify, Scan;
      payloads := [];
      found := Nothing([]);
      JoinNothing([], Scan(Pending()));
      ghost var whole := Scan(Pending());
      var more := true;
      while more
        invariant Valid()
        invariant whole == Join(found, Scan(Pending()))
        invariant payloads == found.payloads
        invariant stats.Tally() == Add(old(stats).Tally(), found.tally)
        invariant stats.bufferOverflows == old(stats).bufferOverflows
        invariant !more ==> Classify(Pending()).Waiting?
        decreases more, size
      {
        ghost var before := found;
        var result, payloadSize, step := Next(payload);
        JoinAssociates(before, step, Scan(Pending()));
        found := Join(before, step);
        if result == Ready {
          payloads := payloads + [payload[..payloadSize]];
        }
        more := result != NeedMore;
      }
      ScanWaiting(Pending());
      JoinNothingAfter(found, Pending());
      found := whole;
    }

    /** A connection's life: feed each received chunk and drain. Chunks of up to 1804 bytes always fit. */
    method Receive(chunks: seq<seq<Byte>>, payload: array<Byte>) returns (payloads: seq<Payload>)
      requires Valid() && payload.Length >= MAX_PAYLOAD && payload != buffer
      requires Classify(Pending()).Waiting?
      requires forall k | 0 <= k < |chunks| :: |chunks[k]| <= BUFFER_CAPACITY - (MAX_PAYLOAD + 4)
      modifies this, buffer, payload
      ensures Valid()
      ensures var whole := Scan(old(Pending()) + Flatten(chunks));
              && payloads == whole.payloads
              && Pending() == whole.rest
              && stats.Tally() == Add(old(stats).Tally(), whole.tally)
      ensures stats.bufferOverflows == old(stats).bufferOverflows
      ensures Classify(Pending()).Waiting?
    {
      hide Classify, Scan, Flatten;
      payloads := [];
      ghost var stream := Pending();
      ScanWaiting(stream);
      StartOfChunks(stream, chunks);
      for k := 0 to |chunks|
        invariant Valid()
        invariant stream == old(Pending()) + Flatten(chunks[..k])
        invariant payloads == Scan(stream).payloads && Pending() == Scan(stream).rest
        invariant stats.Tally() == Add(old(stats).Tally(), Scan(stream).tally)
        invariant stats.bufferOverflows == old(stats).bufferOverflows
      {
        ScanRest(stream);
        var fed := Feed(chunks[k]);
        ScanResumes(stream, chunks[k]);
        FlattenNext(old(Pending()), chunks, k);
        stream := stream + chunks[k];
        var more, now := Drain(payload);
        payloads := payloads + more;
      }
      assert chunks[..|chunks|] == chunks;
      ScanRest(stream);
    }
  }

  lemma SliceOfTake<T>(s: seq<T>, n: nat, i: nat, j: nat)
    requires i <= j <= n <= |s|
    ensures s[..n][i..j] == s[i..j]
  {}

  lemma ScanWaiting(s: seq<Byte>)
    requires Classify(s).Waiting?
    ensures Scan(s) == Nothing(s)
  {}

  lemma StartOfChunks(s: seq<Byte>, chunks: seq<seq<Byte>>)
    ensures s == s + Flatten(chunks[..0])
  {}

  lemma {:induction false} FlattenSnoc(chunks: seq<seq<Byte>>, last: seq<Byte>)
    ensures Flatten(chunks + [last]) == Flatten(chunks) + last
    decreases |chunks|
  {
    if chunks != [] {
      assert (chunks + [last])[1..] == chunks[1..] + [last];
      FlattenSnoc(chunks[1..], last);
    }
  }

  lemma FlattenNext(s: seq<Byte>, chunks: seq<seq<Byte>>, k: nat)
    requires k < |chunks|
    ensures s + Flatten(chunks[..k + 1]) == (s + Flatten(chunks[..k])) + chunks[k]
  {
    assert chunks[..k + 1] == chunks[..k] + [chunks[k]];
    FlattenSnoc(chunks[..k], chunks[k]);
  }

  /** What a call takes out: the noise it skipped and the decided head after it. */
  ghost function Step(s0: seq<Byte>, skipped: Parsed, s1: seq<Byte>): (found: Parsed)
    requires !Classify(s1).Waiting? && skipped.payloads == []
    requires Scan(s0) == Join(skipped, Scan(s1))
    ensures Width(Classify(s1)) <= |s1|
    ensures Scan(s0) == Join(found, Scan(s1[Width(Classify(s1))..]))
    ensures found.payloads == if Classify(s1).Good? then [Classify(s1).payload] else []
    ensures found.tally == Add(skipped.tally, Count(Classify(s1)))
  {
    WidthFits(s1);
    JoinAssociates(skipped, Found(Classify(s1)), Scan(s1[Width(Classify(s1))..]));
    assert skipped.payloads + Found(Classify(s1)).payloads == Found(Classify(s1)).payloads;
    Join(skipped, Found(Classify(s1)))
  }

  /** The head of a stream that starts with MAGIC, read off LEN and the CRC. */
  lemma MagicHead(s: seq<Byte>)
    requires |s| >= 2 && s[0] == MAGIC_0 && s[1] == MAGIC_1
    ensures |s| < 3 ==> Classify(s) == Waiting
    ensures |s| >= 3 && Value(s[2]) > MAX_PAYLOAD ==> Classify(s) == BadLength
    ensures |s| >= 3 && Value(s[2]) <= MAX_PAYLOAD && |s| < Value(s[2]) + 5 ==> Classify(s) == Waiting
    ensures |s| >= 3 && Value(s[2]) <= MAX_PAYLOAD && |s| >= Value(s[2]) + 5 ==>
              Classify(s) == if Codeword(s[2..Value(s[2]) + 5]) then Good(s[3..Value(s[2]) + 3]) else BadCrc
  {}

  lemma WaitingWithoutMagic(s: seq<Byte>, i: nat)
    requires i == |s| || (i + 1 == |s| && s[i] == MAGIC_0)
    ensures Classify(s[i..]).Waiting?
  {}

  /** frame_encode: the frame is written only if the payload is short enough and the output holds it. */
  method EncodeFrame(payload: seq<Byte>, output: array<Byte>, capacity: nat) returns (ok: bool, n: nat)
    requires capacity <= output.Length
    modifies output
    ensures ok <==> |payload| <= MAX_PAYLOAD && |payload| + 5 <= capacity
    ensures ok ==> n == |payload| + 5 && output[..n] == Encode(payload) && output[n..] == old(output[..])[n..]
    ensures !ok ==> output[..] == old(output[..])
  {
    hide LengthByte, Sealed;
    if |payload| > MAX_PAYLOAD {
      return false, 0;
    }
    n := 3 + |payload| + 2;
    if n > capacity {
      return false, 0;
    }
    WriteHeader(payload, output);
    ghost var written := output[..];
    AppendCrc(output, 2, |payload| + 1);
    assert output[..n] == output[..2] + output[2..n];
    ok := true;
  }

  /** memcpy into the middle of `output`. */
  method CopyAt(data: seq<Byte>, output: array<Byte>, at: nat)
    requires at + |data| <= output.Length
    modifies output
    ensures output[at..at + |data|] == data
    ensures output[..at] == old(output[..at]) && output[at + |data|..] == old(output[at + |data|..])
  {
    for i := 0 to |data|
      invariant forall k | 0 <= k < i :: output[at + k] == data[k]
      invariant forall k | 0 <= k < output.Length && !(at <= k < at + i) :: output[k] == old(output[k])
    {
      output[at + i] := data[i];
    }
  }

  /** MAGIC, LEN and PAYLOAD. */
  method WriteHeader(payload: Payload, output: array<Byte>)
    requires |payload| + 3 <= output.Length
    modifies output
    ensures output[..2] == [MAGIC_0, MAGIC_1]
    ensures output[2..2 + (|payload| + 1)] == Body(payload)
    ensures output[|payload| + 3..] == old(output[|payload| + 3..])
  {
    hide LengthByte;
    output[0] := MAGIC_0;
    output[1] := MAGIC_1;
    output[2] := LengthByte(|payload|);
    assert output[3 + |payload|..] == old(output[3 + |payload|..]);
    ghost var head := output[..3];
    CopyAt(payload, output, 3);
    assert output[0] == head[0] && output[1] == head[1] && output[2] == head[2];
    FirstAndRest(output[..], 2, 3 + |payload|);
    assert output[..][2..3 + |payload|] == output[2..3 + |payload|];
    assert output[..][3..3 + |payload|] == output[3..3 + |payload|];
  }

  lemma FirstAndRest<T>(s: seq<T>, i: nat, j: nat)
    requires i < j <= |s|
    ensures s[i..j] == [s[i]] + s[i + 1..j]
  {}

  /** The bound of 244 drained bytes is reached: MAGIC, LEN 240 and all but the last byte. */
  lemma LongestWait() returns (s: seq<Byte>)
    ensures |s| == MAX_PAYLOAD + 4 && Classify(s).Waiting?
    ensures Scan(s) == Nothing(s)
  {
    s := [MAGIC_0, MAGIC_1, LengthByte(MAX_PAYLOAD)] + seq(241, i => 0);
    assert s[2] == LengthByte(MAX_PAYLOAD);
  }
}
