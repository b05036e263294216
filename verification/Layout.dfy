/** Frames byte by byte, and what the responses made from a request carry (link/src/packets.rs). */
module Layout {
  import opened Bits
  import opened Packets
  import opened Codec
  import opened RequestIds

  // ----- the bytes of a frame -----

  /** Three bytes, most significant first; higher bits are lost. */
  function Bytes3(v: nat): (s: seq<u8>)
    ensures |s| == 3
  {
    [v / 0x1_0000 % 0x100, v / 0x100 % 0x100, v % 0x100]
  }

  const COMMANDS: seq<Command> := [
    Auth, Heartbeat, Close, Reconnect, SubAllType, UnSubAllType, SubOrderBook, UnSubOrderBook, SubTrades, SubBrokers,
    SubDepth, UnSubDepth, SubMarketInfo, UnSubBrokers]
  const MSG_TYPES: seq<MsgType> := [Unknown, Snapshot, Trade, Depths, Brokers, MarketInfo, OrderBook, Kline]
  const STATUSES: seq<ResponseStatus> := [
    Success, ServerTimeout, ClientTimeout, BadRequest, BadResponse, Unauthenticated, PermissionDenied,
    ServerInternalError, ClientInternalError]

  /** The codes on the wire are the places in these lists, and no other code is read. */
  lemma {:induction false} CodesAreOrdinals(code: nat)
    ensures CommandOf(code) == if code < |COMMANDS| then Some(COMMANDS[code]) else None
    ensures MsgTypeOf(code) == if code < |MSG_TYPES| then Some(MSG_TYPES[code]) else None
    ensures StatusOf(code) == if code < |STATUSES| then Some(STATUSES[code]) else None
    ensures code < |COMMANDS| ==> CommandCode(COMMANDS[code]) == code
    ensures code < |MSG_TYPES| ==> MsgTypeCode(MSG_TYPES[code]) == code
    ensures code < |STATUSES| ==> StatusCode(STATUSES[code]) == code
  {
  }

  /** Packet type in the top two bits, then two reserved bits, then four bits of command. */
  function FirstByte(kind: nat, reserved: nat, cmd: Command): u8
    requires kind < 3
  {
    kind * 64 + reserved % 4 * 16 + CommandCode(cmd)
  }

  function Frame(p: Packet): seq<u8> {
    match p
    case RequestPacket(r) =>
      [FirstByte(0, r.reserved, r.command)] + Bytes3(r.id) + [r.timeout] + Bytes3(r.bodyLen) + r.body
    case ResponsePacket(r) =>
      [FirstByte(1, r.reserved, r.command)] + Bytes3(r.id) + [StatusCode(r.status)] + Bytes3(r.bodyLen) + r.body
    case PushPacket(r) =>
      [FirstByte(2, r.reserved, r.command)] + [MsgTypeCode(r.msgType)] + Bytes3(r.bodyLen) + r.body
  }

  /** Without the low `n` bits. */
  function High(v: nat, n: nat): nat {
    if n == 0 then v else High(v / 2, n - 1)
  }

  lemma {:induction false} ToBitsSplit(v: nat, m: nat, n: nat)
    ensures ToBits(v, m + n) == ToBits(High(v, n), m) + ToBits(v, n)
    decreases n
  {
    if n == 0 {
      assert ToBits(v, m) + [] == ToBits(v, m);
    } else {
      ToBitsSplit(v / 2, m, n - 1);
      assert ToBits(v / 2, m + (n - 1)) + [v % 2 == 1]
        == ToBits(High(v, n), m) + (ToBits(v / 2, n - 1) + [v % 2 == 1]);
    }
  }

  lemma {:induction false} HighTwo(v: nat)
    ensures High(v, 2) == v / 4
  {
    assert High(v / 2, 1) == High(v / 2 / 2, 0);
  }

  lemma {:induction false} HighIsQuotient(v: nat)
    ensures High(v, 2) == v / 4 && High(v, 4) == v / 16 && High(v, 8) == v / 0x100 && High(v, 16) == v / 0x1_0000
  {
    hide High;
    HighFour(v);
    HighFour(v / 16);
    HighFour(v / 0x100);
    HighFour(v / 0x1000);
    HighTwo(v);
    HighTwice(v, 4, 4);
    HighTwice(v, 8, 4);
    HighTwice(v, 12, 4);
  }

  lemma {:induction false} HighFour(v: nat)
    ensures High(v, 4) == v / 16
  {
    HighTwice(v, 2, 2);
    HighTwo(v);
    HighTwo(v / 4);
  }

  lemma {:induction false} HighTwice(v: nat, m: nat, n: nat)
    ensures High(v, m + n) == High(High(v, m), n)
    decreases m
  {
    if m != 0 { HighTwice(v / 2, m - 1, n); }
  }

  /** Only the low bits of a value are written. */
  lemma {:induction false} ToBitsCut(v: nat, w: nat, n: nat)
    requires v % Pow2(n) == w % Pow2(n)
    ensures ToBits(v, n) == ToBits(w, n)
  {
    FromToBits(v, n);
    FromToBits(w, n);
    ToFromBits(ToBits(v, n));
    ToFromBits(ToBits(w, n));
  }

  lemma {:induction false} ByteBits(x: u8)
    ensures Unpack([x]) == ToBits(x, 8)
  {
    assert Unpack([x]) == ToBits(x, 8) + Unpack([]);
  }

  lemma {:induction false} Bytes3Bits(v: nat)
    ensures Unpack(Bytes3(v)) == ToBits(v, 24)
  {
    hide ToBits, High;
    var a, b, c := v / 0x1_0000, v / 0x100, v;
    Pow2Small(8);
    HighIsQuotient(v);
    ToBitsSplit(v, 8, 16);
    ToBitsSplit(v, 8, 8);
    ToBitsCut(a, a % 0x100, 8);
    ToBitsCut(b, b % 0x100, 8);
    ToBitsCut(c, c % 0x100, 8);
    ByteBits(a % 0x100);
    ByteBits(b % 0x100);
    ByteBits(c % 0x100);
    UnpackConcat([a % 0x100, b % 0x100], [c % 0x100]);
    UnpackConcat([a % 0x100], [b % 0x100]);
    assert [a % 0x100, b % 0x100] + [c % 0x100] == Bytes3(v) && [a % 0x100] + [b % 0x100] == [a % 0x100, b % 0x100];
  }

  lemma {:induction false} SplitFirst(kind: nat, reserved: nat, code: nat)
    requires reserved < 4 && code < 16
    ensures var x := kind * 64 + reserved * 16 + code;
      && x % 16 == code == code % 16
      && x / 16 == kind * 4 + reserved && x / 16 / 4 == kind && x / 16 % 4 == reserved == reserved % 4
  {
  }

  lemma {:induction false} FirstByteBits(kind: nat, reserved: nat, cmd: Command)
    requires kind < 3
    ensures Unpack([FirstByte(kind, reserved, cmd)])
      == ToBits(kind, 2) + (ToBits(reserved, 2) + ToBits(CommandCode(cmd), 4))
  {
    hide ToBits, Unpack, High, CommandCode;
    var x, code := FirstByte(kind, reserved, cmd), CommandCode(cmd);
    CommandCodes(cmd, 0);
    Pow2Small(2);
    SplitFirst(kind, reserved % 4, code);
    ByteBits(x);
    HighIsQuotient(x);
    HighIsQuotient(x / 16);
    ToBitsSplit(x, 4, 4);
    ToBitsCut(x, code, 4);
    ToBitsSplit(x / 16, 2, 2);
    ToBitsCut(x / 16, reserved, 2);
    assert (ToBits(kind, 2) + ToBits(reserved, 2)) + ToBits(code, 4)
      == ToBits(kind, 2) + (ToBits(reserved, 2) + ToBits(code, 4));
  }

  lemma {:induction false} UnpackFive(a: seq<u8>, b: seq<u8>, c: seq<u8>, d: seq<u8>, e: seq<u8>)
    ensures Unpack(a + b + c + d + e) == Unpack(a) + (Unpack(b) + (Unpack(c) + (Unpack(d) + Unpack(e))))
  {
    hide Unpack;
    UnpackConcat(a, b);
    UnpackConcat(a + b, c);
    UnpackConcat(a + b + c, d);
    UnpackConcat(a + b + c + d, e);
    Regroup(Unpack(a), Unpack(b), Unpack(c), Unpack(d) + Unpack(e));
    Regroup(Unpack(a), Unpack(b), Unpack(c), Unpack(d));
    assert (Unpack(a) + (Unpack(b) + (Unpack(c) + Unpack(d)))) + Unpack(e)
      == Unpack(a) + (Unpack(b) + (Unpack(c) + (Unpack(d) + Unpack(e))));
  }

  lemma {:induction false} Regroup(a: seq<bool>, b: seq<bool>, c: seq<bool>, d: seq<bool>)
    ensures ((a + b) + c) + d == a + (b + (c + d)) && (a + (b + c)) + d == a + (b + (c + d))
  {
  }

  /** A frame of five parts, the first of them type, reserved bits and command. */
  lemma {:induction false} FrameBits(kind: nat, reserved: nat, cmd: Command,
                                     b: seq<u8>, c: seq<u8>, d: seq<u8>, e: seq<u8>)
    requires kind < 3
    ensures Unpack([FirstByte(kind, reserved, cmd)] + b + c + d + e)
      == ToBits(kind, 2) + (ToBits(reserved, 2) + (ToBits(CommandCode(cmd), 4)
         + (Unpack(b) + (Unpack(c) + (Unpack(d) + (Unpack(e) + []))))))
  {
    hide Unpack, ToBits, FirstByte;
    FirstByteBits(kind, reserved, cmd);
    UnpackFive([FirstByte(kind, reserved, cmd)], b, c, d, e);
    assert Unpack(e) + [] == Unpack(e);
    Regroup(ToBits(kind, 2), ToBits(reserved, 2), ToBits(CommandCode(cmd), 4),
            Unpack(b) + (Unpack(c) + (Unpack(d) + Unpack(e))));
  }

  /** Every packet is written as exactly these bytes, whatever its fields. */
  lemma {:induction false} FrameLayout(p: Packet)
    ensures ToBytes(p) == Frame(p)
  {
    hide Unpack, ToBits, Bytes3, FirstByte, ToBytes;
    match p
    case RequestPacket(r) =>
      FrameBits(0, r.reserved, r.command, Bytes3(r.id), [r.timeout], Bytes3(r.bodyLen), r.body);
      Bytes3Bits(r.id);
      ByteBits(r.timeout);
      Bytes3Bits(r.bodyLen);
      UnpackInjective(ToBytes(p), Frame(p));
    case ResponsePacket(r) =>
      FrameBits(1, r.reserved, r.command, Bytes3(r.id), [StatusCode(r.status)], Bytes3(r.bodyLen), r.body);
      Bytes3Bits(r.id);
      ByteBits(StatusCode(r.status));
      Bytes3Bits(r.bodyLen);
      UnpackInjective(ToBytes(p), Frame(p));
    case PushPacket(r) =>
      FrameBits(2, r.reserved, r.command, [MsgTypeCode(r.msgType)], Bytes3(r.bodyLen), r.body, []);
      ByteBits(MsgTypeCode(r.msgType));
      Bytes3Bits(r.bodyLen);
      PushEnd(p);
      UnpackInjective(ToBytes(p), Frame(p));
  }

  lemma {:induction false} PushEnd(p: Packet)
    requires p.PushPacket?
    ensures Frame(p) + [] == Frame(p) && Unpack([]) == [] && Unpack(p.push.body) + ([] + []) == Unpack(p.push.body) + []
  {
  }

  // ----- responses -----

  /** A heartbeat is answered with its own body: encoded, sent, answered, encoded and sent back, nothing is changed. */
  lemma {:induction false} HeartbeatEcho(counter: u32, body: seq<u8>, t: seq<u8>, u: seq<u8>)
    requires |body| < MAX_24
    ensures var got := PacketFromBytes(ToBytes(NewRequest(Heartbeat, counter, body)) + t, 0);
      got.Parsed? && got.value.RequestPacket? &&
      var back := PacketFromBytes(ToBytes(NewHeartbeatResponse(got.value.request)) + u, 0);
      && back.Parsed? && back.rest == u
      && back.value == ResponsePacket(Response(0, Heartbeat, RequestIdTrim(counter), Success, |body|, body))
  {
    hide PacketFromBytes, ToBytes, BitAnd;
    var sent := NewRequest(Heartbeat, counter, body);
    ConstructedIsWellFormed(Heartbeat, counter, body);
    RoundTrip(sent, t);
    ResponseIsWellFormed(sent.request, Success, body);
    RoundTrip(NewHeartbeatResponse(sent.request), u);
  }
}
