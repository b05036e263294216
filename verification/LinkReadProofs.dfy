/** The incremental reader equals the one-shot parser under every chunking of the stream. */
module LinkReadProofs {
  import opened Bits
  import opened Packets
  import opened Codec
  import opened SimpleBuffers
  import opened LinkRead

  ghost predicate AllWellFormed(ps: seq<Packet>) {
    forall i :: 0 <= i < |ps| ==> WellFormed(ps[i])
  }

  // ----- the greedy parse -----

  /** Parsing can stop anywhere and resume on the leftover: nothing is lost, nothing is parsed twice. */
  lemma {:induction false} GreedyConcat(a: seq<u8>, b: seq<u8>)
    ensures var g := GreedyParse(a); var h := GreedyParse(g.rest + b);
      GreedyParse(a + b) == Greedy(g.packets + h.packets, h.rest, h.bad)
    decreases |a|
  {
    hide PacketFromBytes, GreedyParse;
    GreedyUnfold(a);
    var r := PacketFromBytes(a, 0);
    var h := GreedyParse(GreedyParse(a).rest + b);
    if r.Parsed? {
      ParsedStable(a, b);
      GreedyUnfold(a + b);
      GreedyConcat(r.rest, b);
      assert [r.value] + (GreedyParse(r.rest).packets + h.packets) == GreedyParse(a).packets + h.packets;
    } else {
      assert [] + h.packets == h.packets;
    }
  }

  /** What was parsed re-encodes to exactly the bytes consumed, and what is left holds no complete packet. */
  lemma {:induction false} GreedyIsCanonical(s: seq<u8>)
    ensures var g := GreedyParse(s);
      && AllWellFormed(g.packets)
      && s == EncodeAll(g.packets) + g.rest
      && !PacketFromBytes(g.rest, 0).Parsed? && (g.bad <==> PacketFromBytes(g.rest, 0).ParseError?)
    decreases |s|
  {
    hide PacketFromBytes, ToBytes, WellFormed;
    match PacketFromBytes(s, 0)
    case Incomplete => assert s == [] + s;
    case ParseError => assert s == [] + s;
    case Parsed(rest, _, p) =>
      ParsedIsWritten(s);
      GreedyIsCanonical(rest);
      var g := GreedyParse(rest);
      assert ([p] + g.packets)[1..] == g.packets;
      assert s == (ToBytes(p) + EncodeAll(g.packets)) + g.rest;
  }

  /** A whole frame in front is parsed first. */
  lemma {:induction false} FrameFirst(p: Packet, s: seq<u8>)
    requires WellFormed(p)
    ensures var g := GreedyParse(s); GreedyParse(ToBytes(p) + s) == Greedy([p] + g.packets, g.rest, g.bad)
  {
    hide PacketFromBytes, ToBytes, WellFormed, GreedyParse;
    RoundTrip(p, s);
    GreedyUnfold(ToBytes(p) + s);
  }

  /** Any list of well-formed packets followed by an incomplete frame parses to that list and leaves the tail. */
  lemma {:induction false} StreamRoundTrip(ps: seq<Packet>, tail: seq<u8>)
    requires AllWellFormed(ps)
    requires !PacketFromBytes(tail, 0).Parsed?
    ensures GreedyParse(EncodeAll(ps) + tail) == Greedy(ps, tail, PacketFromBytes(tail, 0).ParseError?)
  {
    hide PacketFromBytes, ToBytes, WellFormed, GreedyParse;
    if ps == [] {
      GreedyUnfold(tail);
      assert EncodeAll(ps) + tail == tail;
    } else {
      var more := EncodeAll(ps[1..]);
      StreamRoundTrip(ps[1..], tail);
      FrameFirst(ps[0], more + tail);
      assert EncodeAll(ps) + tail == ToBytes(ps[0]) + (more + tail);
      assert ps == [ps[0]] + ps[1..];
    }
  }

  /** And no other list comes back: the stream parses to the list and the tail exactly under these conditions. */
  lemma {:induction false} StreamRoundTripIff(ps: seq<Packet>, tail: seq<u8>)
    ensures var g := GreedyParse(EncodeAll(ps) + tail);
      g.packets == ps && g.rest == tail <==> AllWellFormed(ps) && !PacketFromBytes(tail, 0).Parsed?
  {
    hide PacketFromBytes, GreedyParse, EncodeAll, AllWellFormed;
    GreedyIsCanonical(EncodeAll(ps) + tail);
    if AllWellFormed(ps) && !PacketFromBytes(tail, 0).Parsed? { StreamRoundTrip(ps, tail); }
  }

  /** A proper prefix of a frame is incomplete, never an error and never another packet. */
  lemma {:induction false} FramePrefixIncomplete(s: seq<u8>, p: Packet)
    requires WellFormed(p) && s <= ToBytes(p) && |s| < |ToBytes(p)|
    ensures PacketFromBytes(s, 0).Incomplete?
  {
    hide PacketFromBytes, HeaderFromBytes, ToBytes, WellFormed;
    var t := ToBytes(p)[|s|..];
    assert ToBytes(p) == s + t && ToBytes(p) == ToBytes(p) + [];
    RoundTrip(p, []);
    HeaderStable(s, t);
    HeaderAgreement(s);
    HeaderAgreement(s + t);
  }

  /** A stretch of one frame after another: either it ends inside the first frame or it starts with it. */
  lemma {:induction false} SplitFrame(s: seq<u8>, f: seq<u8>, more: seq<u8>)
    requires s <= f + more
    ensures if |s| < |f| then s <= f else s == f + s[|f|..] && s[|f|..] <= more
  {
    assert s == (f + more)[..|s|];
    if |s| < |f| {
      assert s == f[..|s|];
    } else {
      assert s[..|f|] == f && s[|f|..] == more[..|s| - |f|];
    }
  }

  /** Parsing a prefix of the encoding of `ps` yields a prefix of `ps` and part of the next frame. */
  lemma {:induction false} PrefixParse(s: seq<u8>, ps: seq<Packet>)
    requires AllWellFormed(ps) && s <= EncodeAll(ps)
    ensures var g := GreedyParse(s);
      && !g.bad && g.packets <= ps
      && (if |g.packets| == |ps| then g.rest == [] else |g.rest| < |ToBytes(ps[|g.packets|])|)
      && (s == EncodeAll(ps) ==> g.packets == ps)
  {
    hide PacketFromBytes, ToBytes, WellFormed;
    if ps == [] {
      EmptyIncomplete();
    } else {
      var f := ToBytes(ps[0]);
      SplitFrame(s, f, EncodeAll(ps[1..]));
      if |s| < |f| {
        FramePrefixIncomplete(s, ps[0]);
      } else {
        var rest := s[|f|..];
        PrefixParse(rest, ps[1..]);
        RoundTrip(ps[0], rest);
        var g := GreedyParse(rest);
        assert GreedyParse(s) == g.(packets := [ps[0]] + g.packets);
        assert ps == [ps[0]] + ps[1..];
        if s == EncodeAll(ps) { assert rest == EncodeAll(ps[1..]); }
      }
    }
  }

  lemma {:induction false} EmptyIncomplete()
    ensures PacketFromBytes([], 0).Incomplete?
  {
    HeaderAgreement([]);
  }

  // ----- the need-size gate -----

  /** Below the need size no packet is complete, and once a header is known the need size is exactly its frame. */
  lemma {:induction false} GateIsExact(s: seq<u8>)
    ensures |s| < NeedSize(s) ==> GreedyParse(s).packets == [] && GreedyParse(s).rest == s
    ensures HeaderFromBytes(s, 0).Parsed? ==> (|s| < NeedSize(s) <==> GreedyParse(s).packets == [])
  {
    hide PacketFromBytes, HeaderFromBytes;
    HeaderAgreement(s);
  }

  /** A need size stays right while the buffered bytes stay below it. */
  lemma {:induction false} NeedSizeStable(s: seq<u8>, t: seq<u8>)
    requires |s + t| < NeedSize(s)
    ensures NeedSize(s + t) == NeedSize(s)
  {
    hide PacketFromBytes, HeaderFromBytes;
    HeaderStable(s, t);
    HeaderAgreement(s + t);
  }

  // ----- the reader over any chunking -----

  /** What the reader has done after the stream `s`, against the one-shot parse of `s`. */
  ghost predicate Tracks(r: Reader, s: seq<u8>) {
    var g := GreedyParse(s);
    && r.buf.Valid()
    && match r.stop
       case Running =>
         && r.out == g.packets && r.buf.bytes == g.rest && r.need == NeedSize(g.rest)
         && (g.bad ==> |r.buf.bytes| < MIN_PACKET_HEADER_SIZE)
       case Malformed => r.out == g.packets && g.bad
       case _ => r.out <= g.packets
  }

  /** The buffer always has the pushed chunk behind the old leftover, whether or not it was compacted first. */
  lemma {:induction false} ReadChunkTracks(r: Reader, s: seq<u8>, b: seq<u8>)
    requires Tracks(r, s)
    ensures Tracks(ReadChunk(r, b), s + b)
  {
    hide PacketFromBytes, NeedSize, GreedyParse;
    if r.stop == Running {
      RunningChunkTracks(r, s, b);
    } else {
      GreedyConcat(s, b);
      if r.stop == Malformed {
        GreedyIsCanonical(s);
        BadStaysBad(GreedyParse(s).rest, b);
      }
    }
  }

  lemma {:induction false} RunningChunkTracks(r: Reader, s: seq<u8>, b: seq<u8>)
    requires Tracks(r, s) && r.stop == Running
    ensures Tracks(ReadChunk(r, b), s + b)
  {
    hide PacketFromBytes, HeaderFromBytes, NeedSize, GreedyParse, ReadChunk, Concat, ReadAll;
    var more := r.buf.bytes + b;
    SkippedParseIsIdle(r.buf.bytes, b);
    RunningChunk(r, b, more);
    GreedyConcat(s, b);
    BadNeedsOnlyHeader(more);
  }

  /** Nothing can be parsed any more: then the reader waits for no more than a header. */
  lemma {:induction false} BadNeedsOnlyHeader(s: seq<u8>)
    ensures GreedyParse(s).bad ==> NeedSize(GreedyParse(s).rest) == MIN_PACKET_HEADER_SIZE
  {
    hide PacketFromBytes, HeaderFromBytes, GreedyParse;
    GreedyIsCanonical(s);
    HeaderAgreement(GreedyParse(s).rest);
  }

  /** Leftover and chunk together: below the need size of the leftover, a parse would do nothing. */
  lemma {:induction false} SkippedParseIsIdle(rest: seq<u8>, b: seq<u8>)
    ensures var more := rest + b; var g := GreedyParse(more);
      && g.rest == more[|more| - |g.rest|..]
      && (|more| < NeedSize(rest) ==> g.packets == [] && g.rest == more && NeedSize(rest) == NeedSize(more))
  {
    hide PacketFromBytes, HeaderFromBytes, NeedSize, GreedyParse, ReadChunk, Concat, ReadAll;
    GreedyRestIsSuffix(rest + b);
    if |rest + b| < NeedSize(rest) {
      NeedSizeStable(rest, b);
      GateIsExact(rest + b);
    }
  }

  /** A chunk is absorbed by one parse of leftover and chunk; skipping the parse below the need size loses nothing. */
  lemma {:induction false} RunningChunk(r: Reader, b: seq<u8>, more: seq<u8>)
    requires r.buf.Valid() && r.stop == Running && more == r.buf.bytes + b
    requires var g := GreedyParse(more);
      && g.rest == more[|more| - |g.rest|..]
      && (|more| < r.need ==> g.packets == [] && g.rest == more && r.need == NeedSize(more))
    ensures var g := GreedyParse(more); var t := ReadChunk(r, b);
      && t.buf.Valid()
      && match t.stop
         case Running =>
           && t.out == r.out + g.packets && t.buf.bytes == g.rest && t.need == NeedSize(g.rest)
           && (g.bad ==> |more| < r.need)
         case Malformed => t.out == r.out + g.packets && g.bad
         case _ => t.out == r.out
  {
    hide NeedSize, GreedyParse, Concat, ReadAll;
    assert r.out + [] == r.out;
  }

  lemma {:induction false} BadStaysBad(s: seq<u8>, t: seq<u8>)
    requires PacketFromBytes(s, 0).ParseError?
    ensures GreedyParse(s + t).packets == [] && GreedyParse(s + t).bad
  {
    hide PacketFromBytes, HeaderFromBytes;
    HeaderAgreement(s);
    HeaderStable(s, t);
    HeaderAgreement(s + t);
  }

  /** After any chunks, the reader stands exactly where the one-shot parse of their concatenation stands. */
  lemma {:induction false} ReaderTracksStream(capacity: nat, chunks: seq<seq<u8>>)
    ensures Tracks(ReadAll(NewReader(capacity), chunks), Concat(chunks))
    ensures ReadAll(NewReader(capacity), chunks).buf.capacity == capacity
  {
    hide PacketFromBytes, NeedSize;
    if chunks == [] {
      EmptyIncomplete();
      EmptyNeed();
    } else {
      ReaderTracksStream(capacity, chunks[..|chunks| - 1]);
      ReadChunkTracks(ReadAll(NewReader(capacity), chunks[..|chunks| - 1]), Concat(chunks[..|chunks| - 1]),
                      chunks[|chunks| - 1]);
    }
  }

  lemma {:induction false} EmptyNeed()
    ensures NeedSize([]) == MIN_PACKET_HEADER_SIZE
  {
    HeaderAgreement([]);
  }

  /**
   * Chunking invariance: two cuts of one stream emit the same packets, unless one of them ran out of space. If only
   * one has noticed that the stream is malformed, the other is waiting for the rest of a header.
   */
  lemma {:induction false} ChunkingInvariance(
      capacity1: nat, chunks1: seq<seq<u8>>, capacity2: nat, chunks2: seq<seq<u8>>)
    requires Concat(chunks1) == Concat(chunks2)
    requires ReadAll(NewReader(capacity1), chunks1).stop in {Running, Malformed}
    requires ReadAll(NewReader(capacity2), chunks2).stop in {Running, Malformed}
    ensures var r1, r2 := ReadAll(NewReader(capacity1), chunks1), ReadAll(NewReader(capacity2), chunks2);
      && r1.out == r2.out
      && (r1.stop == Malformed && r2.stop == Running ==> |r2.buf.bytes| < MIN_PACKET_HEADER_SIZE)
  {
    ReaderTracksStream(capacity1, chunks1);
    ReaderTracksStream(capacity2, chunks2);
  }

  /** Fed any part of the encoding of `ps`, the reader emits a prefix of `ps`; fed all of it, all of `ps`. */
  lemma {:induction false} ReaderEmitsPrefix(capacity: nat, chunks: seq<seq<u8>>, ps: seq<Packet>)
    requires AllWellFormed(ps) && Concat(chunks) <= EncodeAll(ps)
    ensures var r := ReadAll(NewReader(capacity), chunks);
      && r.out <= ps && r.stop != Malformed
      && (r.stop == Running && Concat(chunks) == EncodeAll(ps) ==> r.out == ps && r.buf.bytes == [])
  {
    hide PacketFromBytes, NeedSize, GreedyParse, EncodeAll, Concat, ReadAll, AllWellFormed;
    ReaderTracksStream(capacity, chunks);
    PrefixParse(Concat(chunks), ps);
  }
}
