/** Greedy frame parsing and the stream reader (link/src/transport/link.rs, parse_packet_buf and link_read_loop). */
module LinkRead {
  import opened Bits
  import opened Packets
  import opened Codec
  import opened SimpleBuffers

  // ----- the reference: parse as many packets as the bytes hold -----

  /** Packets at the front of a byte string, what is left, and whether what is left can never parse. */
  datatype Greedy = Greedy(packets: seq<Packet>, rest: seq<u8>, bad: bool)

  function GreedyParse(s: seq<u8>): (g: Greedy)
    ensures |g.rest| <= |s|
    decreases |s|
  {
    match PacketFromBytes(s, 0)
    case Incomplete => Greedy([], s, false)
    case ParseError => Greedy([], s, true)
    case Parsed(rest, _, p) =>
      ParsedIsWritten(s);
      var g := GreedyParse(rest);
      g.(packets := [p] + g.packets)
  }

  lemma {:induction false} GreedyUnfold(s: seq<u8>)
    ensures var r := PacketFromBytes(s, 0);
      GreedyParse(s) == if r.Parsed? then var g := GreedyParse(r.rest); Greedy([r.value] + g.packets, g.rest, g.bad)
                        else Greedy([], s, r.ParseError?)
    ensures PacketFromBytes(s, 0).Parsed? ==> |PacketFromBytes(s, 0).rest| < |s|
  {
    hide PacketFromBytes;
    if PacketFromBytes(s, 0).Parsed? { ParsedIsWritten(s); }
  }

  /** Bytes that must be buffered before parsing can make progress again. */
  function NeedSize(s: seq<u8>): (n: nat)
    ensures n >= MIN_PACKET_HEADER_SIZE
  {
    HeaderAgreement(s);
    match HeaderFromBytes(s, 0)
    case Parsed(_, _, h) => NeedBytes(h)
    case _ => MIN_PACKET_HEADER_SIZE
  }

  function EncodeAll(ps: seq<Packet>): seq<u8> {
    if ps == [] then [] else ToBytes(ps[0]) + EncodeAll(ps[1..])
  }

  // ----- parse_packet_buf -----

  datatype ParseResult = Consumed(bytes: nat, need: nat) | ParseFailed

  /** The parser with its running counts; it does what the reference says and reports the right need size. */
  method ParsePacketBuf(buffer: seq<u8>) returns (responses: seq<Packet>, result: ParseResult)
    ensures var g := GreedyParse(buffer);
      && responses == g.packets
      && result == if g.bad then ParseFailed else Consumed(|buffer| - |g.rest|, NeedSize(g.rest))
  {
    hide HeaderFromBytes, PacketFromBytes, GreedyParse;
    var packetBuffer := buffer;
    var consumedBytes := 0;
    var occupiedBytes: int := |packetBuffer|;
    var needSize: nat := MIN_PACKET_HEADER_SIZE;
    var cursor := 0;
    responses := [];
    while true
      invariant cursor == 0
      invariant occupiedBytes == |packetBuffer|
      invariant consumedBytes + |packetBuffer| == |buffer|
      invariant needSize == MIN_PACKET_HEADER_SIZE
      invariant var g := GreedyParse(packetBuffer);
        GreedyParse(buffer) == Greedy(responses + g.packets, g.rest, g.bad)
      decreases |packetBuffer|
    {
      HeaderAgreement(packetBuffer);
      GreedyUnfold(packetBuffer);
      match HeaderFromBytes(packetBuffer, cursor) {
        case Parsed(_, _, header) =>
          needSize := NeedBytes(header);
          if occupiedBytes < needSize {
            return responses, Consumed(consumedBytes, needSize);
          }
        case Incomplete =>
          return responses, Consumed(consumedBytes, needSize);
        case ParseError =>
          return responses, ParseFailed;
      }
      match PacketFromBytes(packetBuffer, cursor) {
        case Parsed(rest, i, packet) =>
          ParsedIsWritten(packetBuffer);
          var packetSize := TotalBytes(packet);
          occupiedBytes := occupiedBytes - packetSize;
          consumedBytes := consumedBytes + packetSize;
          packetBuffer, cursor := rest, i;
          needSize := MIN_PACKET_HEADER_SIZE;
          ghost var later := GreedyParse(rest).packets;
          assert responses + ([packet] + later) == (responses + [packet]) + later;
          responses := responses + [packet];
        case Incomplete =>
          assert false;
        case ParseError =>
          assert false;
      }
    }
  }

  // ----- link_read_loop, one received chunk at a time -----

  datatype ReadStop = Running | NoSpace | PushFailed | Malformed

  datatype Reader = Reader(buf: Buf, need: nat, out: seq<Packet>, stop: ReadStop)

  function NewReader(capacity: nat): Reader {
    Reader(EmptyBuf(capacity), MIN_PACKET_HEADER_SIZE, [], Running)
  }

  function ReadChunk(r: Reader, b: seq<u8>): Reader {
    if r.stop != Running then r else
    if |r.buf.bytes| < |b| && r.buf.MaxLen() < |b| then r.(stop := NoSpace) else
    var buf1 := if |r.buf.bytes| < |b| then r.buf.Reuse() else r.buf;
    if buf1.Tail() < |b| then r.(buf := buf1, stop := PushFailed) else
    var buf2 := buf1.Push(b);
    if |buf2.bytes| < r.need then r.(buf := buf2.ReuseIf()) else
    var g := GreedyParse(buf2.bytes);
    if g.bad then r.(buf := buf2, out := r.out + g.packets, stop := Malformed) else
    Reader(buf2.Free(|buf2.bytes| - |g.rest|).ReuseIf(), NeedSize(g.rest), r.out + g.packets, Running)
  }

  function ReadAll(r: Reader, chunks: seq<seq<u8>>): Reader {
    if chunks == [] then r else ReadChunk(ReadAll(r, chunks[..|chunks| - 1]), chunks[|chunks| - 1])
  }

  /** link_read_loop over the chunks its channel delivers before closing. */
  method LinkReadLoop(chunks: seq<seq<u8>>, capacity: nat)
    returns (responses: seq<Packet>, leftover: seq<u8>, need: nat, stop: ReadStop)
    ensures var r := ReadAll(NewReader(capacity), chunks);
      responses == r.out && leftover == r.buf.bytes && need == r.need && stop == r.stop
  {
    var packetBuffer := new SimpleBuf(capacity);
    var needSize: nat := MIN_PACKET_HEADER_SIZE;
    responses, stop := [], Running;
    var k := 0;
    while k < |chunks| && stop == Running
      invariant 0 <= k <= |chunks|
      invariant packetBuffer.Valid() && fresh(packetBuffer) && fresh(packetBuffer.data)
      invariant ReadAll(NewReader(capacity), chunks[..k]) == Reader(packetBuffer.View(), needSize, responses, stop)
    {
      assert chunks[..k + 1][..k] == chunks[..k];
      needSize, responses, stop := ReceiveChunk(packetBuffer, needSize, responses, chunks[k]);
      k := k + 1;
    }
    StoppedReadsNothing(NewReader(capacity), chunks, k);
    leftover := packetBuffer.OccupiedSlice();
    need := needSize;
  }

  /** The receive arm of link_read_loop. */
  method ReceiveChunk(packetBuffer: SimpleBuf, needSize: nat, responses: seq<Packet>, b: seq<u8>)
    returns (need: nat, out: seq<Packet>, stop: ReadStop)
    requires packetBuffer.Valid()
    modifies packetBuffer, packetBuffer.data
    ensures packetBuffer.Valid()
    ensures Reader(packetBuffer.View(), need, out, stop)
      == ReadChunk(Reader(old(packetBuffer.View()), needSize, responses, Running), b)
  {
    hide GreedyParse, NeedSize;
    need, out, stop := needSize, responses, Running;
    var len := packetBuffer.Len();
    if len < |b| {
      var maxLen := packetBuffer.MaxLen();
      if maxLen < |b| {
        return needSize, responses, NoSpace;
      }
      packetBuffer.Reuse();
    }
    var pushed := packetBuffer.PushSlice(b);
    if !pushed {
      return needSize, responses, PushFailed;
    }
    len := packetBuffer.Len();
    if len >= needSize {
      need, out, stop := ParseBuffered(packetBuffer, needSize, responses);
      if stop == Malformed {
        return;
      }
    }
    var reused := packetBuffer.ReuseIf();
  }

  /** Parses what is buffered and frees what was consumed. */
  method ParseBuffered(packetBuffer: SimpleBuf, needSize: nat, responses: seq<Packet>)
    returns (need: nat, out: seq<Packet>, stop: ReadStop)
    requires packetBuffer.Valid()
    modifies packetBuffer`occupiedIdx
    ensures packetBuffer.Valid()
    ensures var was := old(packetBuffer.View()); var g := GreedyParse(was.bytes);
      && out == responses + g.packets
      && (g.bad ==> stop == Malformed && need == needSize && packetBuffer.View() == was)
      && (!g.bad ==> stop == Running && need == NeedSize(g.rest)
                     && packetBuffer.View() == was.Free(|was.bytes| - |g.rest|))
  {
    hide GreedyParse, NeedSize;
    var occupied := packetBuffer.OccupiedSlice();
    var parsed, result := ParsePacketBuf(occupied);
    out := responses + parsed;
    match result {
      case Consumed(c, n) =>
        var freed := packetBuffer.Free(c);
        need, stop := n, Running;
      case ParseFailed =>
        need, stop := needSize, Malformed;
    }
  }

  lemma {:induction false} GreedyRestIsSuffix(s: seq<u8>)
    ensures var g := GreedyParse(s); |g.rest| <= |s| && g.rest == s[|s| - |g.rest|..]
    decreases |s|
  {
    hide PacketFromBytes;
    if PacketFromBytes(s, 0).Parsed? {
      ParsedIsWritten(s);
      GreedyRestIsSuffix(PacketFromBytes(s, 0).rest);
    }
  }

  lemma {:induction false} StoppedReadsNothing(r: Reader, chunks: seq<seq<u8>>, k: nat)
    requires k <= |chunks|
    requires k == |chunks| || ReadAll(r, chunks[..k]).stop != Running
    ensures ReadAll(r, chunks) == ReadAll(r, chunks[..k])
  {
    if k == |chunks| {
      assert chunks[..k] == chunks;
    } else {
      var last := chunks[..|chunks| - 1];
      assert last[..k] == chunks[..k];
      StoppedReadsNothing(r, last, k);
    }
  }
}
