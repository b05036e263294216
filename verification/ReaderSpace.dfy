/** When link_read_loop runs out of buffer space, and a bound under which it never does. */
module ReaderSpace {
  import opened Bits
  import opened Packets
  import opened Codec
  import opened SimpleBuffers
  import opened LinkRead
  import opened LinkReadProofs

  ghost predicate FramesAtMost(ps: seq<Packet>, f: nat) {
    forall i :: 0 <= i < |ps| ==> |ToBytes(ps[i])| <= f
  }

  ghost predicate GrowingUpTo(chunks: seq<seq<u8>>, c: nat) {
    && (forall i :: 0 <= i < |chunks| ==> |chunks[i]| <= c)
    && (forall i, j :: 0 <= i < j < |chunks| ==> |chunks[i]| <= |chunks[j]|)
  }

  function LastLength(chunks: seq<seq<u8>>): nat {
    if chunks == [] then 0 else |chunks[|chunks| - 1]|
  }

  lemma {:induction false} FrameOutgrowsLeftover(left: seq<u8>, b: seq<u8>)
    requires !PacketFromBytes(left, 0).Parsed? && PacketFromBytes(left + b, 0).Parsed?
    ensures |left| < |ToBytes(PacketFromBytes(left + b, 0).value)|
  {
    hide PacketFromBytes, ToBytes, WellFormed;
    ParsedIsWritten(left + b);
    var r := PacketFromBytes(left + b, 0);
    SplitFrame(left, ToBytes(r.value), r.rest);
    RoundTrip(r.value, if |left| < |ToBytes(r.value)| then [] else left[|ToBytes(r.value)|..]);
  }

  /** A completed frame ends inside the newest chunk, so fewer bytes than that chunk are left over. */
  lemma {:induction false} LeftoverShorterThanChunk(left: seq<u8>, b: seq<u8>)
    requires !PacketFromBytes(left, 0).Parsed?
    requires GreedyParse(left + b).packets != []
    ensures |GreedyParse(left + b).rest| < |b|
  {
    hide PacketFromBytes, ToBytes, WellFormed, GreedyParse;
    GreedyUnfold(left + b);
    FrameOutgrowsLeftover(left, b);
    ParsedIsWritten(left + b);
    GreedyRestIsSuffix(PacketFromBytes(left + b, 0).rest);
  }

  /** Between chunks: less than a frame is buffered, and it sits at the front or is shorter than the last chunk. */
  ghost predicate Roomy(r: Reader, f: nat, last: nat) {
    r.stop == Running && |r.buf.bytes| < f && (r.buf.head == 0 || |r.buf.bytes| < last)
  }

  lemma {:induction false} ChunkKeepsRoom(r: Reader, s: seq<u8>, b: seq<u8>, f: nat, c: nat, last: nat)
    requires Tracks(r, s) && Roomy(r, f, last)
    requires last <= |b| <= c && f + c - 1 <= r.buf.capacity
    requires !GreedyParse(s + b).bad && |GreedyParse(s + b).rest| < f
    ensures Roomy(ReadChunk(r, b), f, |b|)
  {
    hide PacketFromBytes, NeedSize, GreedyParse, ReadChunk;
    GreedyConcat(s, b);
    GreedyIsCanonical(s);
    var more := r.buf.bytes + b;
    GateIsExact(more);
    if GreedyParse(more).packets != [] {
      LeftoverShorterThanChunk(r.buf.bytes, b);
    } else {
      NoPacketNoProgress(more);
    }
    if |more| < r.need { NeedSizeStable(r.buf.bytes, b); }
    RoomyChunk(r, b, f, c, last);
  }

  lemma {:induction false} RoomyChunk(r: Reader, b: seq<u8>, f: nat, c: nat, last: nat)
    requires r.buf.Valid() && Roomy(r, f, last)
    requires last <= |b| <= c && f + c - 1 <= r.buf.capacity
    requires var more := r.buf.bytes + b; var g := GreedyParse(more);
      && !g.bad && |g.rest| < f
      && (if g.packets == [] then g.rest == more else |g.rest| < |b|)
      && (|more| < r.need ==> g.packets == [])
    ensures Roomy(ReadChunk(r, b), f, |b|)
  {
    hide NeedSize, GreedyParse;
  }

  /**
   * Space failures, exactly: the chunk does not fit beside the occupied bytes at all, or it is no longer than them,
   * so nothing is compacted, and it does not fit behind the consumed front.
   */
  lemma {:induction false} SpaceFailureIff(r: Reader, b: seq<u8>)
    requires r.buf.Valid() && r.stop == Running
    ensures var t, len := ReadChunk(r, b), |r.buf.bytes|;
      && (t.stop == NoSpace <==> len < |b| && len + |b| > r.buf.capacity)
      && (t.stop == PushFailed <==> |b| <= len && r.buf.head + len + |b| > r.buf.capacity)
      && (t.stop in {NoSpace, PushFailed} ==> t == r.(stop := t.stop))
  {
    hide NeedSize, GreedyParse;
  }

  /**
   * Where the bytes lie after a chunk: compacted before it if it is longer than what was buffered, then moved up by
   * what was parsed, and compacted again exactly if the chunk reached the end of the buffer.
   */
  lemma {:induction false} ChunkPlaces(r: Reader, b: seq<u8>)
    requires r.buf.Valid() && r.stop == Running && ReadChunk(r, b).stop == Running
    ensures var t, len := ReadChunk(r, b), |r.buf.bytes|;
      var start := if len < |b| then 0 else r.buf.head;
      && t.buf.capacity == r.buf.capacity && |t.buf.bytes| <= len + |b|
      && t.buf.head == if start + len + |b| == r.buf.capacity then 0 else start + (len + |b| - |t.buf.bytes|)
  {
    hide NeedSize, GreedyParse;
  }

  /** So between chunks, in every run, either nothing consumed lies in front or there is room behind. */
  lemma {:induction false} TailNeverUsedUp(capacity: nat, chunks: seq<seq<u8>>)
    requires capacity > 0
    ensures var r := ReadAll(NewReader(capacity), chunks);
      r.stop == Running ==> r.buf.head == 0 || r.buf.head + |r.buf.bytes| < capacity
  {
    hide ReadChunk;
    if chunks != [] {
      var before := chunks[..|chunks| - 1];
      TailNeverUsedUp(capacity, before);
      ReaderTracksStream(capacity, before);
      var r := ReadAll(NewReader(capacity), before);
      if ReadChunk(r, chunks[|chunks| - 1]).stop == Running {
        StoppedStays(r, chunks[|chunks| - 1]);
        ReaderTracksStream(capacity, chunks);
        ChunkPlaces(r, chunks[|chunks| - 1]);
      }
    }
  }

  lemma {:induction false} StoppedStays(r: Reader, b: seq<u8>)
    ensures r.stop != Running ==> ReadChunk(r, b) == r
  {
  }

  /** With nothing consumed in front, a chunk is taken exactly when it fits behind the occupied bytes. */
  lemma {:induction false} HeadZeroChunk(r: Reader, b: seq<u8>)
    requires r.buf.Valid() && r.stop == Running && r.buf.head == 0
    requires !GreedyParse(r.buf.bytes + b).bad
    ensures ReadChunk(r, b).stop == Running <==> |r.buf.bytes| + |b| <= r.buf.capacity
  {
    hide NeedSize, GreedyParse;
    assert r.buf.Reuse() == r.buf;
    if r.buf.Tail() >= |b| {
      assert r.buf.Push(b).bytes == r.buf.bytes + b;
    }
  }

  lemma {:induction false} FirstChunkBuffered(capacity: nat, b: seq<u8>)
    requires PacketFromBytes(b, 0).Incomplete? && |b| <= capacity
    ensures var r := ReadChunk(NewReader(capacity), b); r.stop == Running && r.buf == Buf(capacity, 0, b)
  {
    hide NeedSize, GreedyParse, PacketFromBytes;
    GreedyUnfold(b);
    assert [] + b == b;
  }

  lemma {:induction false} NoPacketNoProgress(s: seq<u8>)
    requires GreedyParse(s).packets == []
    ensures GreedyParse(s).rest == s
  {
    hide PacketFromBytes;
    GreedyUnfold(s);
  }

  /** With frames up to `f`, chunks of non-decreasing length up to `c` and capacity f + c - 1, space never runs out. */
  lemma {:induction false} ReaderNeverRunsOut(capacity: nat, chunks: seq<seq<u8>>, ps: seq<Packet>, f: nat, c: nat)
    requires AllWellFormed(ps) && Concat(chunks) <= EncodeAll(ps)
    requires 1 <= f && FramesAtMost(ps, f) && GrowingUpTo(chunks, c)
    requires f + c - 1 <= capacity
    ensures Roomy(ReadAll(NewReader(capacity), chunks), f, LastLength(chunks))
  {
    hide PacketFromBytes, NeedSize, GreedyParse, ToBytes, WellFormed, ReadChunk;
    if chunks != [] {
      var before, b := chunks[..|chunks| - 1], chunks[|chunks| - 1];
      assert Concat(before) <= EncodeAll(ps);
      ReaderNeverRunsOut(capacity, before, ps, f, c);
      ReaderTracksStream(capacity, before);
      PrefixParse(Concat(chunks), ps);
      assert LastLength(before) <= |b|;
      ChunkKeepsRoom(ReadAll(NewReader(capacity), before), Concat(before), b, f, c, LastLength(before));
    }
  }

  lemma {:induction false} ReadAllFew(r: Reader, a: seq<u8>, b: seq<u8>)
    ensures ReadAll(r, [a]) == ReadChunk(r, a)
    ensures ReadAll(r, [a, b]) == ReadChunk(ReadChunk(r, a), b)
  {
    hide ReadChunk;
    var one, two := [a], [a, b];
    assert one[..|one| - 1] == [] && two[..|two| - 1] == one;
  }

  /** Two chunks that cut the first frame after `k` bytes are read without failure exactly when both fit at once. */
  lemma {:induction false} TwoChunksFit(capacity: nat, ps: seq<Packet>, k: nat, c: nat)
    requires AllWellFormed(ps) && ps != [] && k < |ToBytes(ps[0])|
    requires k <= c && k + c <= |EncodeAll(ps)| && k <= capacity
    ensures var s := EncodeAll(ps);
      ReadAll(NewReader(capacity), [s[..k], s[k..k + c]]).stop == Running <==> k + c <= capacity
  {
    hide PacketFromBytes, NeedSize, GreedyParse, ToBytes, WellFormed, ReadChunk;
    var s := EncodeAll(ps);
    var first, second := s[..k], s[k..k + c];
    assert first == ToBytes(ps[0])[..k];
    hide EncodeAll, ReadAll;
    ReadAllFew(NewReader(capacity), first, second);
    FramePrefixIncomplete(first, ps[0]);
    FirstChunkBuffered(capacity, first);
    assert first + second == s[..k + c];
    PrefixParse(first + second, ps);
    HeadZeroChunk(ReadChunk(NewReader(capacity), first), second);
  }

  /**
   * The transport hands the same size to the stream read buffer and to the packet buffer. So in every run a full read
   * is refused for space exactly when anything at all is left over.
   */
  lemma {:induction false} FullReadFailsIff(capacity: nat, chunks: seq<seq<u8>>, b: seq<u8>)
    requires ReadAll(NewReader(capacity), chunks).stop == Running && |b| == capacity > 0
    ensures ReadAll(NewReader(capacity), chunks + [b]).stop in {NoSpace, PushFailed}
      <==> ReadAll(NewReader(capacity), chunks).buf.bytes != []
  {
    hide GreedyParse, ReadChunk;
    ReaderTracksStream(capacity, chunks);
    assert (chunks + [b])[..|chunks|] == chunks;
    SpaceFailureIff(ReadAll(NewReader(capacity), chunks), b);
  }

  /**
   * For instance after a first read of one byte, however small the frames are.
   */
  lemma {:induction false} FullReadAfterOneByteFails(capacity: nat, ps: seq<Packet>)
    requires AllWellFormed(ps) && ps != [] && 1 <= capacity < |EncodeAll(ps)|
    ensures var s := EncodeAll(ps);
      ReadAll(NewReader(capacity), [s[..1], s[1..1 + capacity]]).stop != Running
  {
    hide ReadAll, EncodeAll, WellFormed;
    TwoChunksFit(capacity, ps, 1, capacity);
  }

  const EMPTY_PUSH: Packet := PushPacket(Push(0, Auth, Unknown, 0, []))

  /**
   * The push can fail although the free space would do: compaction looks at the occupied length, not at the tail.
   * Capacity 10 and three empty pushes, received as nine bytes and then two, with six bytes free.
   */
  lemma {:induction false} RoomIsNotEnough() returns (first: seq<u8>, second: seq<u8>)
    ensures first + second <= EncodeAll([EMPTY_PUSH, EMPTY_PUSH, EMPTY_PUSH]) && |second| == 2
    ensures var r := ReadAll(NewReader(10), [first]);
      && r.stop == Running && r.buf.head == 5 && |r.buf.bytes| == 4 && r.buf.MaxLen() == 6
      && ReadChunk(r, second).stop == PushFailed
  {
    hide PacketFromBytes, NeedSize, GreedyParse, ToBytes, WellFormed, ReadChunk;
    var f := ToBytes(EMPTY_PUSH);
    var s := EncodeAll([EMPTY_PUSH, EMPTY_PUSH, EMPTY_PUSH]);
    EmptyPushIsWellFormed();
    ThreeFrames(EMPTY_PUSH);
    first, second := NineBytes(f, s);
    ReadAllFew(NewReader(10), first, []);
    FrameAndPart(EMPTY_PUSH, 4);
    LastChunkRefused(first, f[..4], second);
  }

  lemma {:induction false} NineBytes(f: seq<u8>, s: seq<u8>) returns (first: seq<u8>, second: seq<u8>)
    requires |f| == 5 && s == f + (f + (f + []))
    ensures first == f + f[..4] && |second| == 2 && first + second <= s
  {
    first, second := s[..9], s[9..11];
    assert first + second == s[..11];
  }

  lemma {:induction false} FrameAndPart(p: Packet, k: nat)
    requires WellFormed(p) && k < |ToBytes(p)|
    ensures var f := ToBytes(p); GreedyParse(f + f[..k]) == Greedy([p], f[..k], false)
  {
    hide PacketFromBytes, GreedyParse, ToBytes, WellFormed;
    var f := ToBytes(p);
    RoundTrip(p, f[..k]);
    FramePrefixIncomplete(f[..k], p);
    GreedyUnfold(f + f[..k]);
    GreedyUnfold(f[..k]);
  }

  lemma {:induction false} LastChunkRefused(first: seq<u8>, rest: seq<u8>, b: seq<u8>)
    requires |first| == 9 && rest == first[5..] && |b| == 2
    requires !GreedyParse(first).bad && GreedyParse(first).rest == rest
    ensures var r := ReadChunk(NewReader(10), first);
      && r.stop == Running && r.buf == Buf(10, 5, rest) && ReadChunk(r, b).stop == PushFailed
  {
    hide NeedSize, GreedyParse;
    assert [] + first == first;
  }

  lemma {:induction false} EmptyPushIsWellFormed()
    ensures WellFormed(EMPTY_PUSH) && |ToBytes(EMPTY_PUSH)| == 5
  {
  }

  lemma {:induction false} ThreeFrames(p: Packet)
    ensures EncodeAll([p, p, p]) == ToBytes(p) + (ToBytes(p) + (ToBytes(p) + []))
  {
    hide ToBytes;
    var one, two, three := [p], [p, p], [p, p, p];
    assert three[1..] == two && two[1..] == one && one[1..] == [];
    assert EncodeAll(one) == ToBytes(p) + EncodeAll([]);
    assert EncodeAll(two) == ToBytes(p) + EncodeAll(one);
  }
}
