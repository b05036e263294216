/** The packets of the link protocol and their derived wire codec (link/src/packets.rs). */
module Packets {
  import opened Bits

  const REQUEST_HEADER_SIZE := 8
  const RESPONSE_HEADER_SIZE := 8
  const PUSH_HEADER_SIZE := 5
  const MIN_PACKET_HEADER_SIZE := 5
  const DEFAULT_REQUEST_TIMEOUT: u8 := 5
  const MAX_24: nat := 0x100_0000

  datatype Option<+T> = None | Some(value: T)

  datatype Command =
    | Auth | Heartbeat | Close | Reconnect
    | SubAllType | UnSubAllType | SubOrderBook | UnSubOrderBook | SubTrades
    | SubBrokers | SubDepth | UnSubDepth | SubMarketInfo | UnSubBrokers

  datatype MsgType = Unknown | Snapshot | Trade | Depths | Brokers | MarketInfo | OrderBook | Kline

  datatype ResponseStatus =
    | Success | ServerTimeout | ClientTimeout | BadRequest | BadResponse
    | Unauthenticated | PermissionDenied | ServerInternalError | ClientInternalError

  datatype Request = Request(reserved: u8, command: Command, id: u32, timeout: u8, bodyLen: u32, body: seq<u8>)
  datatype Response =
    Response(reserved: u8, command: Command, id: u32, status: ResponseStatus, bodyLen: u32, body: seq<u8>)
  datatype Push = Push(reserved: u8, command: Command, msgType: MsgType, bodyLen: u32, body: seq<u8>)
  datatype Packet = RequestPacket(request: Request) | ResponsePacket(response: Response) | PushPacket(push: Push)

  datatype RequestHeader = RequestHeader(reserved: u8, command: Command, id: u32, timeout: u8, bodyLen: u32)
  datatype ResponseHeader =
    ResponseHeader(reserved: u8, command: Command, id: u32, status: ResponseStatus, bodyLen: u32)
  datatype PushHeader = PushHeader(reserved: u8, command: Command, msgType: MsgType, bodyLen: u32)
  datatype PacketHeader =
    | HeaderOfRequest(requestHeader: RequestHeader)
    | HeaderOfResponse(responseHeader: ResponseHeader)
    | HeaderOfPush(pushHeader: PushHeader)

  // ----- enumerations on the wire -----

  function CommandOf(code: nat): Option<Command> {
    if code == 0 then Some(Auth) else if code == 1 then Some(Heartbeat)
    else if code == 2 then Some(Close) else if code == 3 then Some(Reconnect)
    else if code == 4 then Some(SubAllType) else if code == 5 then Some(UnSubAllType)
    else if code == 6 then Some(SubOrderBook) else if code == 7 then Some(UnSubOrderBook)
    else if code == 8 then Some(SubTrades) else if code == 9 then Some(SubBrokers)
    else if code == 10 then Some(SubDepth) else if code == 11 then Some(UnSubDepth)
    else if code == 12 then Some(SubMarketInfo) else if code == 13 then Some(UnSubBrokers)
    else None
  }

  function CommandCode(c: Command): nat {
    match c
    case Auth => 0 case Heartbeat => 1 case Close => 2 case Reconnect => 3
    case SubAllType => 4 case UnSubAllType => 5 case SubOrderBook => 6 case UnSubOrderBook => 7
    case SubTrades => 8 case SubBrokers => 9 case SubDepth => 10 case UnSubDepth => 11
    case SubMarketInfo => 12 case UnSubBrokers => 13
  }

  function MsgTypeOf(code: nat): Option<MsgType> {
    if code == 0 then Some(Unknown) else if code == 1 then Some(Snapshot)
    else if code == 2 then Some(Trade) else if code == 3 then Some(Depths)
    else if code == 4 then Some(Brokers) else if code == 5 then Some(MarketInfo)
    else if code == 6 then Some(OrderBook) else if code == 7 then Some(Kline)
    else None
  }

  function MsgTypeCode(m: MsgType): nat {
    match m
    case Unknown => 0 case Snapshot => 1 case Trade => 2 case Depths => 3
    case Brokers => 4 case MarketInfo => 5 case OrderBook => 6 case Kline => 7
  }

  function StatusOf(code: nat): Option<ResponseStatus> {
    if code == 0 then Some(Success) else if code == 1 then Some(ServerTimeout)
    else if code == 2 then Some(ClientTimeout) else if code == 3 then Some(BadRequest)
    else if code == 4 then Some(BadResponse) else if code == 5 then Some(Unauthenticated)
    else if code == 6 then Some(PermissionDenied) else if code == 7 then Some(ServerInternalError)
    else if code == 8 then Some(ClientInternalError)
    else None
  }

  function StatusCode(s: ResponseStatus): nat {
    match s
    case Success => 0 case ServerTimeout => 1 case ClientTimeout => 2 case BadRequest => 3
    case BadResponse => 4 case Unauthenticated => 5 case PermissionDenied => 6
    case ServerInternalError => 7 case ClientInternalError => 8
  }

  // ----- reading -----

  /** Outcome of reading from a bit stream; `Short` and `Bad` are deku's Incomplete and Parse errors. */
  datatype Read<+T> = Got(value: T, rest: seq<bool>) | Short | Bad {
    predicate IsFailure() { !Got? }
    function PropagateFailure<U>(): Read<U>
      requires IsFailure()
    { if Short? then Short else Bad }
    function Extract(): (T, seq<bool>)
      requires Got?
    { (value, rest) }
  }

  function ReadUInt(b: seq<bool>, n: nat): Read<nat> {
    if |b| < n then Short else Got(FromBits(b[..n]), b[n..])
  }

  function ReadU8(b: seq<bool>, n: nat): Read<u8>
    requires n <= 8
  {
    var (v, rest) :- ReadUInt(b, n);
    FromBitsBound(b[..n]);
    Pow2Small(n);
    Got(v, rest)
  }

  function ReadU24(b: seq<bool>): (r: Read<u32>)
    ensures r.Got? ==> r.value < MAX_24
  {
    var (v, rest) :- ReadUInt(b, 24);
    FromBitsBound(b[..24]);
    Pow2Small(24);
    Got(v, rest)
  }

  /** Enumeration fields: an unknown code is a parse error. */
  function ReadCommand(b: seq<bool>): Read<Command> {
    var (code, rest) :- ReadUInt(b, 4);
    match CommandOf(code) case None => Bad case Some(c) => Got(c, rest)
  }

  function ReadMsgType(b: seq<bool>): Read<MsgType> {
    var (code, rest) :- ReadUInt(b, 8);
    match MsgTypeOf(code) case None => Bad case Some(m) => Got(m, rest)
  }

  function ReadStatus(b: seq<bool>): Read<ResponseStatus> {
    var (code, rest) :- ReadUInt(b, 8);
    match StatusOf(code) case None => Bad case Some(s) => Got(s, rest)
  }

  function ReadBytes(b: seq<bool>, count: nat): Read<seq<u8>>
  {
    if count == 0 then Got([], b) else
      var (v, b1) :- ReadU8(b, 8);
      var (vs, b2) :- ReadBytes(b1, count - 1);
      Got([v] + vs, b2)
  }

  function ReadRequestHeader(b: seq<bool>): Read<RequestHeader> {
    var (reserved, b1) :- ReadU8(b, 2);
    var (command, b2) :- ReadCommand(b1);
    var (id, b3) :- ReadU24(b2);
    var (timeout, b4) :- ReadU8(b3, 8);
    var (bodyLen, b5) :- ReadU24(b4);
    Got(RequestHeader(reserved, command, id, timeout, bodyLen), b5)
  }

  function ReadResponseHeader(b: seq<bool>): Read<ResponseHeader> {
    var (reserved, b1) :- ReadU8(b, 2);
    var (command, b2) :- ReadCommand(b1);
    var (id, b3) :- ReadU24(b2);
    var (status, b4) :- ReadStatus(b3);
    var (bodyLen, b5) :- ReadU24(b4);
    Got(ResponseHeader(reserved, command, id, status, bodyLen), b5)
  }

  function ReadPushHeader(b: seq<bool>): Read<PushHeader> {
    var (reserved, b1) :- ReadU8(b, 2);
    var (command, b2) :- ReadCommand(b1);
    var (msgType, b3) :- ReadMsgType(b2);
    var (bodyLen, b4) :- ReadU24(b3);
    Got(PushHeader(reserved, command, msgType, bodyLen), b4)
  }

  function ReadHeader(b: seq<bool>): Read<PacketHeader> {
    var (typ, b1) :- ReadUInt(b, 2);
    if typ == 0 then var (h, b2) :- ReadRequestHeader(b1); Got(HeaderOfRequest(h), b2)
    else if typ == 1 then var (h, b2) :- ReadResponseHeader(b1); Got(HeaderOfResponse(h), b2)
    else if typ == 2 then var (h, b2) :- ReadPushHeader(b1); Got(HeaderOfPush(h), b2)
    else Bad
  }

  function ReadRequest(b: seq<bool>): Read<Request> {
    var (reserved, b1) :- ReadU8(b, 2);
    var (command, b2) :- ReadCommand(b1);
    var (id, b3) :- ReadU24(b2);
    var (timeout, b4) :- ReadU8(b3, 8);
    var (bodyLen, b5) :- ReadU24(b4);
    var (body, b6) :- ReadBytes(b5, bodyLen);
    Got(Request(reserved, command, id, timeout, bodyLen, body), b6)
  }

  function ReadResponse(b: seq<bool>): Read<Response> {
    var (reserved, b1) :- ReadU8(b, 2);
    var (command, b2) :- ReadCommand(b1);
    var (id, b3) :- ReadU24(b2);
    var (status, b4) :- ReadStatus(b3);
    var (bodyLen, b5) :- ReadU24(b4);
    var (body, b6) :- ReadBytes(b5, bodyLen);
    Got(Response(reserved, command, id, status, bodyLen, body), b6)
  }

  function ReadPush(b: seq<bool>): Read<Push> {
    var (reserved, b1) :- ReadU8(b, 2);
    var (command, b2) :- ReadCommand(b1);
    var (msgType, b3) :- ReadMsgType(b2);
    var (bodyLen, b4) :- ReadU24(b3);
    var (body, b5) :- ReadBytes(b4, bodyLen);
    Got(Push(reserved, command, msgType, bodyLen, body), b5)
  }

  function ReadPacket(b: seq<bool>): Read<Packet> {
    var (typ, b1) :- ReadUInt(b, 2);
    if typ == 0 then var (r, b2) :- ReadRequest(b1); Got(RequestPacket(r), b2)
    else if typ == 1 then var (r, b2) :- ReadResponse(b1); Got(ResponsePacket(r), b2)
    else if typ == 2 then var (r, b2) :- ReadPush(b1); Got(PushPacket(r), b2)
    else Bad
  }

  /** Result of a container read on bytes: the bytes left over, the bit cursor inside them, and the value. */
  datatype Parsed<+T> = Parsed(rest: seq<u8>, cursor: nat, value: T) | Incomplete | ParseError

  /** deku reports the whole bytes consumed and leaves the remaining bits as the cursor. */
  function Finish<T>(s: seq<u8>, r: Read<T>): Parsed<T> {
    match r
    case Short => Incomplete
    case Bad => ParseError
    case Got(v, rest) =>
      var bitsRead: int := 8 * |s| - |rest|;
      if bitsRead < 0 then ParseError else Parsed(s[bitsRead / 8..], bitsRead % 8, v)
  }

  function HeaderFromBytes(s: seq<u8>, cursor: nat): Parsed<PacketHeader> {
    if 8 * |s| < cursor then Incomplete else Finish(s, ReadHeader(Unpack(s)[cursor..]))
  }

  function PacketFromBytes(s: seq<u8>, cursor: nat): Parsed<Packet> {
    if 8 * |s| < cursor then Incomplete else Finish(s, ReadPacket(Unpack(s)[cursor..]))
  }

  // ----- writing -----

  /** The bits of a packet in front of `t`. Every field is cut to its width; the body is written whole. */
  function Put(p: Packet, t: seq<bool>): seq<bool> {
    match p
    case RequestPacket(r) => ToBits(0, 2) + PutRequest(r, t)
    case ResponsePacket(r) => ToBits(1, 2) + PutResponse(r, t)
    case PushPacket(r) => ToBits(2, 2) + PutPush(r, t)
  }

  function PutRequest(r: Request, t: seq<bool>): seq<bool> {
    ToBits(r.reserved, 2) + (ToBits(CommandCode(r.command), 4) + (ToBits(r.id, 24) + (ToBits(r.timeout, 8) +
      (ToBits(r.bodyLen, 24) + (Unpack(r.body) + t)))))
  }

  function PutResponse(r: Response, t: seq<bool>): seq<bool> {
    ToBits(r.reserved, 2) + (ToBits(CommandCode(r.command), 4) + (ToBits(r.id, 24) + (ToBits(StatusCode(r.status), 8) +
      (ToBits(r.bodyLen, 24) + (Unpack(r.body) + t)))))
  }

  function PutPush(r: Push, t: seq<bool>): seq<bool> {
    ToBits(r.reserved, 2) + (ToBits(CommandCode(r.command), 4) + (ToBits(MsgTypeCode(r.msgType), 8) +
      (ToBits(r.bodyLen, 24) + (Unpack(r.body) + t))))
  }

  function ToBytes(p: Packet): (s: seq<u8>)
    ensures Unpack(s) == Put(p, [])
    ensures |s| == HeaderSize(p) + |Body(p)|
  {
    PutLength(p, []);
    UnpackPack(Put(p, []));
    Pack(Put(p, []))
  }

  lemma {:induction false} PutLength(p: Packet, t: seq<bool>)
    ensures |Put(p, t)| == 8 * (HeaderSize(p) + |Body(p)|) + |t|
  {
  }

  function HeaderSize(p: Packet): (n: nat)
    ensures n >= MIN_PACKET_HEADER_SIZE
  {
    match p
    case RequestPacket(_) => REQUEST_HEADER_SIZE
    case ResponsePacket(_) => RESPONSE_HEADER_SIZE
    case PushPacket(_) => PUSH_HEADER_SIZE
  }

  function Body(p: Packet): seq<u8> {
    match p
    case RequestPacket(r) => r.body
    case ResponsePacket(r) => r.body
    case PushPacket(r) => r.body
  }

  function BodyLen(p: Packet): u32 {
    match p
    case RequestPacket(r) => r.bodyLen
    case ResponsePacket(r) => r.bodyLen
    case PushPacket(r) => r.bodyLen
  }

  function TotalBytes(p: Packet): nat {
    match p
    case RequestPacket(r) => r.bodyLen + REQUEST_HEADER_SIZE
    case ResponsePacket(r) => r.bodyLen + RESPONSE_HEADER_SIZE
    case PushPacket(r) => r.bodyLen + PUSH_HEADER_SIZE
  }

  function NeedBytes(h: PacketHeader): nat {
    match h
    case HeaderOfRequest(r) => r.bodyLen + REQUEST_HEADER_SIZE
    case HeaderOfResponse(r) => r.bodyLen + RESPONSE_HEADER_SIZE
    case HeaderOfPush(r) => r.bodyLen + PUSH_HEADER_SIZE
  }

  /** The header carries the packet's fields. */
  predicate HeaderOf(h: PacketHeader, p: Packet) {
    match p
    case RequestPacket(r) => h == HeaderOfRequest(RequestHeader(r.reserved, r.command, r.id, r.timeout, r.bodyLen))
    case ResponsePacket(r) => h == HeaderOfResponse(ResponseHeader(r.reserved, r.command, r.id, r.status, r.bodyLen))
    case PushPacket(r) => h == HeaderOfPush(PushHeader(r.reserved, r.command, r.msgType, r.bodyLen))
  }

  /** The packets whose fields fit the wire and whose length field tells the truth. */
  predicate WellFormed(p: Packet) {
    && BodyLen(p) == |Body(p)|
    && BodyLen(p) < MAX_24
    && match p
       case RequestPacket(r) => r.reserved < 4 && r.id < MAX_24
       case ResponsePacket(r) => r.reserved < 4 && r.id < MAX_24
       case PushPacket(r) => r.reserved < 4
  }

  // ----- constructors -----

  /** `id & 0x00ff_ffff`. */
  function RequestIdTrim(id: u32): (r: u32)
    ensures r == id % MAX_24
  {
    AndLowMask(id, 24, 32);
    Pow2Small(24);
    BitAnd(id, 0x00ff_ffff, 32)
  }

  /** `len as u32`. */
  function LenAsU32(n: nat): u32 {
    n % 0x1_0000_0000
  }

  function NewRequest(cmd: Command, id: u32, body: seq<u8>): Packet {
    RequestPacket(Request(0, cmd, RequestIdTrim(id), DEFAULT_REQUEST_TIMEOUT, LenAsU32(|body|), body))
  }

  function NewResponseFrom(req: Request, status: ResponseStatus, body: seq<u8>): Packet {
    ResponsePacket(Response(0, req.command, req.id, status, LenAsU32(|body|), body))
  }

  function NewHeartbeatResponse(req: Request): Packet {
    ResponsePacket(Response(0, Heartbeat, req.id, Success, req.bodyLen, req.body))
  }

  // ----- widths -----

  lemma {:induction false} Pow2Small(n: nat)
    ensures n <= 8 ==> Pow2(n) <= 0x100
    ensures Pow2(2) == 4 && Pow2(4) == 16 && Pow2(8) == 0x100 && Pow2(24) == MAX_24
  {
    assert Pow2(8) == 0x100 && Pow2(12) == 0x1000 && Pow2(16) == 0x1_0000 && Pow2(20) == 0x10_0000;
    if n <= 8 { Pow2Monotone(n, 8); }
  }

  lemma {:induction false} Pow2Monotone(m: nat, n: nat)
    requires m <= n
    ensures Pow2(m) <= Pow2(n)
  {
    if m < n {
      Pow2Monotone(m, n - 1);
    }
  }
}
