/**
 Which frames a byte stream holds, said without a scanning order: a cover is a list of
 non-overlapping good frames and a cut such that every earlier position outside them starts nothing
 good and nothing undecided, while the cut itself is undecided. Every stream has exactly one cover,
 and the scanner finds it.
 */
module FrameCover {
  import opened Crc
  import opened ErrorDetection
  import FlippedBits
  import opened FrameFormat

  datatype Span = Span(start: nat, payload: Payload) {
    function End(): nat { start + |payload| + 5 }
  }

  ghost predicate Covered(spans: seq<Span>, p: nat) {
    exists k :: 0 <= k < |spans| && spans[k].start <= p < spans[k].End()
  }

  ghost predicate Rejected(s: seq<Byte>, p: nat)
    requires p <= |s|
  {
    var h := Classify(s[p..]);
    h.Noise? || h.BadLength? || h.BadCrc?
  }

  /** `spans` and `cut` describe `s` from position `p` on. */
  ghost predicate Cover(s: seq<Byte>, p: nat, spans: seq<Span>, cut: nat) {
    && p <= cut <= |s|
    && Classify(s[cut..]).Waiting?
    && (forall k | 0 <= k < |spans| ::
          p <= spans[k].start && spans[k].End() <= cut && Classify(s[spans[k].start..]) == Good(spans[k].payload))
    && (forall i, j | 0 <= i < j < |spans| :: spans[i].End() <= spans[j].start)
    && (forall q | p <= q < cut && !Covered(spans, q) :: Rejected(s, q))
  }

  // ---------------------------------------------------------------- the scanner's cover

  function ScanSpans(s: seq<Byte>, p: nat): (seq<Span>, nat)
    requires p <= |s|
    decreases |s| - p
  {
    var h := Classify(s[p..]);
    if h.Waiting? then ([], p)
    else
      WidthFits(s[p..]);
      var (spans, cut) := ScanSpans(s, p + Width(h));
      (if h.Good? then [Span(p, h.payload)] + spans else spans, cut)
  }

  function Payloads(spans: seq<Span>): seq<Payload> {
    seq(|spans|, i requires 0 <= i < |spans| => spans[i].payload)
  }

  lemma PayloadsPrepend(first: Span, spans: seq<Span>)
    ensures Payloads([first] + spans) == [first.payload] + Payloads(spans)
  {}

  lemma {:induction false} ScanSpansAgree(s: seq<Byte>, p: nat)
    requires p <= |s|
    ensures ScanSpans(s, p).1 <= |s|
    ensures Scan(s[p..]).payloads == Payloads(ScanSpans(s, p).0)
    ensures Scan(s[p..]).rest == s[ScanSpans(s, p).1..]
    decreases |s| - p
  {
    hide Classify;
    var h := Classify(s[p..]);
    if !h.Waiting? {
      hide Join, Found, Payloads;
      WidthFits(s[p..]);
      var next := p + Width(h);
      DropOfDrop(s, p, Width(h));
      ScanSpansAgree(s, next);
      FoundFirst(h, Scan(s[next..]));
      if h.Good? { PayloadsPrepend(Span(p, h.payload), ScanSpans(s, next).0); }
    }
  }

  lemma CoverSkips(s: seq<Byte>, p: nat, spans: seq<Span>, cut: nat)
    requires p < |s| && Cover(s, p + 1, spans, cut) && Rejected(s, p)
    ensures Cover(s, p, spans, cut)
  {
    hide Classify;
  }

  lemma CoveredByFirstOrRest(first: Span, rest: seq<Span>, q: nat)
    ensures Covered([first] + rest, q) <==> first.start <= q < first.End() || Covered(rest, q)
  {
    var all := [first] + rest;
    assert all[0] == first;
    forall k | 0 <= k < |rest| ensures all[k + 1] == rest[k] {}
    if Covered(all, q) {
      var k :| 0 <= k < |all| && all[k].start <= q < all[k].End();
      assert k == 0 || all[k] == rest[k - 1];
    }
  }

  lemma CoverTakes(s: seq<Byte>, first: Span, spans: seq<Span>, cut: nat)
    requires first.End() <= |s| && Classify(s[first.start..]) == Good(first.payload)
    requires Cover(s, first.End(), spans, cut)
    ensures Cover(s, first.start, [first] + spans, cut)
  {
    hide Classify;
    var all := [first] + spans;
    forall q | first.start <= q < cut && !Covered(all, q) ensures Rejected(s, q) {
      CoveredByFirstOrRest(first, spans, q);
    }
    forall i, j | 0 <= i < j < |all| ensures all[i].End() <= all[j].start {
      assert all[j] == spans[j - 1];
    }
  }

  lemma {:induction false} ScanFindsCover(s: seq<Byte>, p: nat)
    requires p <= |s|
    ensures Cover(s, p, ScanSpans(s, p).0, ScanSpans(s, p).1)
    decreases |s| - p
  {
    hide Classify, Cover;
    var h := Classify(s[p..]);
    if h.Waiting? {
      NoSpans(s, p);
    } else {
      WidthFits(s[p..]);
      var (spans, cut) := ScanSpans(s, p + Width(h));
      ScanFindsCover(s, p + Width(h));
      if h.Good? {
        CoverTakes(s, Span(p, h.payload), spans, cut);
      } else {
        CoverSkips(s, p, spans, cut);
      }
    }
  }

  lemma NoSpans(s: seq<Byte>, p: nat)
    requires p <= |s| && Classify(s[p..]).Waiting?
    ensures Cover(s, p, [], p)
  {}

  // ---------------------------------------------------------------- there is no other cover

  lemma CoverStart(s: seq<Byte>, p: nat, spans: seq<Span>, cut: nat)
    requires Cover(s, p, spans, cut)
    ensures Classify(s[p..]).Waiting? ==> spans == [] && cut == p
    ensures Rejected(s, p) ==> Cover(s, p + 1, spans, cut)
    ensures Classify(s[p..]).Good? ==> |spans| > 0 && spans[0] == Span(p, Classify(s[p..]).payload)
  {
    hide Classify;
    assert |spans| > 0 ==> p <= spans[0].start < spans[0].End() <= cut;
    assert Covered(spans, p) ==> spans[0].start == p by {
      forall k | 0 < k < |spans| ensures p < spans[k].start {
        assert spans[0].End() <= spans[k].start;
      }
    }
  }

  lemma CoverDrops(s: seq<Byte>, p: nat, spans: seq<Span>, cut: nat)
    requires Cover(s, p, spans, cut) && |spans| > 0 && spans[0].start == p
    ensures Cover(s, spans[0].End(), spans[1..], cut)
  {
    hide Classify;
    var rest := spans[1..];
    forall q | spans[0].End() <= q < cut && !Covered(rest, q) ensures Rejected(s, q) {
      CoveredByFirstOrRest(spans[0], rest, q);
      assert [spans[0]] + rest == spans;
    }
    assert forall k | 0 <= k < |rest| :: rest[k] == spans[k + 1] && spans[0].End() <= spans[k + 1].start;
  }

  /** The cover of a stream is unique, so the scanner's answer is the only one. */
  lemma {:induction false} CoverIsUnique(s: seq<Byte>, p: nat, spans: seq<Span>, cut: nat)
    requires Cover(s, p, spans, cut)
    ensures ScanSpans(s, p) == (spans, cut)
    decreases |s| - p
  {
    hide Classify, Cover;
    CoverInBounds(s, p, spans, cut);
    CoverStart(s, p, spans, cut);
    var h := Classify(s[p..]);
    if !h.Waiting? {
      WidthFits(s[p..]);
      if h.Good? {
        CoverDrops(s, p, spans, cut);
        CoverIsUnique(s, spans[0].End(), spans[1..], cut);
        assert spans == [spans[0]] + spans[1..];
      } else {
        CoverIsUnique(s, p + 1, spans, cut);
      }
    }
  }

  lemma CoverInBounds(s: seq<Byte>, p: nat, spans: seq<Span>, cut: nat)
    requires Cover(s, p, spans, cut)
    ensures p <= |s|
  {}

  lemma EmittedIsEncoded(s: seq<Byte>, spans: seq<Span>, cut: nat, k: nat)
    requires Cover(s, 0, spans, cut) && k < |spans|
    ensures spans[k].End() <= |s| && s[spans[k].start..spans[k].End()] == Encode(spans[k].payload)
  {
    hide Classify, Encode;
    var f := spans[k];
    GoodIffEncoded(s[f.start..], f.payload);
    assert s[f.start..][..|f.payload| + 5] == s[f.start..f.End()];
  }

  lemma CompleteIsCovered(s: seq<Byte>, spans: seq<Span>, cut: nat, q: nat, p: Payload)
    requires Cover(s, 0, spans, cut) && q < cut && Encode(p) <= s[q..]
    ensures Covered(spans, q)
  {
    hide Classify, Encode;
    GoodIffEncoded(s[q..], p);
  }

  /** Resynchronisation misses nothing: wherever the encoding of some payload occurs in a stream, that
      occurrence is emitted, or it overlaps an emitted frame that starts earlier, or it begins in the
      bytes still buffered. And whatever is emitted is the encoding of a payload at its place. */
  lemma ResyncIsLeftmostComplete(s: seq<Byte>, q: nat, p: Payload)
    requires q <= |s| && Encode(p) <= s[q..]
    ensures q < |s| - |Scan(s).rest| ==> Covered(ScanSpans(s, 0).0, q)
    ensures forall k | 0 <= k < |ScanSpans(s, 0).0| ::
              var f := ScanSpans(s, 0).0[k];
              f.End() <= |s| && s[f.start..f.End()] == Encode(f.payload)
    ensures Payloads(ScanSpans(s, 0).0) == Scan(s).payloads
  {
    hide Classify, ScanSpans, Scan, Encode, Payloads, Cover;
    var (spans, cut) := ScanSpans(s, 0);
    DropNothing(s);
    ScanSpansAgree(s, 0);
    ScanFindsCover(s, 0);
    if q < cut { CompleteIsCovered(s, spans, cut, q, p); }
    forall k | 0 <= k < |spans|
      ensures spans[k].End() <= |s| && s[spans[k].start..spans[k].End()] == Encode(spans[k].payload)
    {
      EmittedIsEncoded(s, spans, cut, k);
    }
  }

  // ---------------------------------------------------------------- damage in transit

  /** A frame whose payload and CRC bytes (from index 3 on) were damaged. */
  predicate Damaged(p: Payload, g: seq<Byte>) {
    && |g| == |p| + 5
    && g[..3] == Encode(p)[..3]
    && g != Encode(p)
  }

  lemma DifferInTail<T>(f: seq<T>, g: seq<T>)
    requires |f| == |g| >= 2 && f[0] == g[0] && f[1] == g[1] && f != g
    ensures f[2..] != g[2..]
  {
    assert f == [f[0], f[1]] + f[2..] && g == [g[0], g[1]] + g[2..];
  }

  lemma DamagedIsCandidate(p: Payload, g: seq<Byte>, more: seq<Byte>)
    requires Damaged(p, g)
    ensures Codeword(Encode(p)[2..]) && g[2..] != Encode(p)[2..]
    ensures !Codeword(g[2..]) ==> Classify(g + more) == BadCrc
  {
    hide Codeword, Trailer, Encode, Value;
    var f := Encode(p);
    EncodedIsGood(f, p);
    GoodMeans(f, p);
    assert f[2..|p| + 5] == f[2..];
    assert g[0] == g[..3][0] == f[0] && g[1] == g[..3][1] == f[1] && g[2] == g[..3][2] == f[2];
    DifferInTail(f, g);
    SliceOfPrefix(g, more, 2, |p| + 5);
    assert g[2..|p| + 5] == g[2..];
  }

  /** A burst of at most sixteen bits in the payload or CRC of a frame is rejected, and so are up to three
      flipped bits and any odd number of them there, whatever follows in the stream. */
  lemma DamageIsRejected(p: Payload, g: seq<Byte>, more: seq<Byte>, at: nat)
    requires Damaged(p, g)
    requires var a, b := BitsOf(Encode(p)[2..]), BitsOf(g[2..]);
             || (forall i | 0 <= i < |a| && a[i] != b[i] :: at <= i < at + 16)
             || Ones(Difference(a, b)) % 2 == 1
             || 1 <= Ones(Difference(a, b)) <= 3
    ensures Classify(g + more) == BadCrc
  {
    hide Codeword, Classify, Encode;
    var a, b := Encode(p)[2..], g[2..];
    DamagedIsCandidate(p, g, more);
    if Ones(Difference(BitsOf(a), BitsOf(b))) % 2 == 1 {
      OddFlipsDetected(a, b);
    } else if Ones(Difference(BitsOf(a), BitsOf(b))) == 2 {
      FlippedBits.FewFlipsDetected(a, b);
    } else {
      BurstDetected(a, b, at);
    }
  }
}
