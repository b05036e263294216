/** The codec of Packets is canonical and prefix-free, and its header reader agrees with its packet reader. */
module Codec {
  import opened Bits
  import opened Packets

  // ----- one field -----

  lemma {:induction false} FieldRoundTrip(v: nat, n: nat, t: seq<bool>)
    ensures ReadUInt(ToBits(v, n) + t, n) == Got(v % Pow2(n), t)
  {
    var b := ToBits(v, n) + t;
    assert b[..n] == ToBits(v, n) && b[n..] == t;
    FromToBits(v, n);
  }

  lemma {:induction false} FieldFits(v: nat, n: nat, t: seq<bool>)
    requires v < Pow2(n)
    ensures ReadUInt(ToBits(v, n) + t, n) == Got(v, t)
  {
    FieldRoundTrip(v, n, t);
    ModUnique(v, Pow2(n), 0, v);
  }

  lemma {:induction false} FieldCanonical(b: seq<bool>, n: nat)
    requires n <= |b|
    ensures b == ToBits(FromBits(b[..n]), n) + b[n..]
  {
    ToFromBits(b[..n]);
    assert b == b[..n] + b[n..];
  }

  // ----- the body -----

  lemma {:induction false} BytesRoundTrip(body: seq<u8>, t: seq<bool>)
    ensures ReadBytes(Unpack(body) + t, |body|) == Got(body, t)
  {
    if body == [] {
      assert Unpack(body) + t == t;
    } else {
      var rest := Unpack(body[1..]) + t;
      assert Unpack(body) + t == ToBits(body[0], 8) + rest;
      FieldRoundTrip(body[0], 8, rest);
      ByteRoundTrip(body[0]);
      FromToBits(body[0], 8);
      BytesRoundTrip(body[1..], t);
      assert ReadU8(Unpack(body) + t, 8) == Got(body[0], rest);
      assert [body[0]] + body[1..] == body;
    }
  }

  lemma {:induction false} BytesCanonical(b: seq<bool>, count: nat)
    requires ReadBytes(b, count).Got?
    ensures var r := ReadBytes(b, count); |r.value| == count && b == Unpack(r.value) + r.rest
  {
    hide ToBits, FromBits;
    if count == 0 {
      assert b == Unpack([]) + b;
    } else {
      FieldCanonical(b, 8);
      BytesCanonical(b[8..], count - 1);
      var v, vs := FromBits(b[..8]), ReadBytes(b[8..], count - 1).value;
      assert ([v] + vs)[1..] == vs;
      assert b == ToBits(v, 8) + (Unpack(vs) + ReadBytes(b, count).rest);
    }
  }

  lemma {:induction false} BytesWhenEnough(b: seq<bool>, count: nat)
    ensures var r := ReadBytes(b, count);
      if 8 * count <= |b| then r.Got? && |r.value| == count && |r.rest| == |b| - 8 * count else r.Short?
  {
    if count != 0 && 8 <= |b| {
      BytesWhenEnough(b[8..], count - 1);
    }
  }

  // ----- enumerations -----

  lemma {:induction false} CommandCodes(c: Command, code: nat)
    ensures CommandOf(CommandCode(c)) == Some(c) && CommandCode(c) < 16
    ensures CommandOf(code).Some? ==> CommandCode(CommandOf(code).value) == code
  {
  }

  lemma {:induction false} MsgTypeCodes(m: MsgType, code: nat)
    ensures MsgTypeOf(MsgTypeCode(m)) == Some(m) && MsgTypeCode(m) < 0x100
    ensures MsgTypeOf(code).Some? ==> MsgTypeCode(MsgTypeOf(code).value) == code
  {
  }

  lemma {:induction false} StatusCodes(s: ResponseStatus, code: nat)
    ensures StatusOf(StatusCode(s)) == Some(s) && StatusCode(s) < 0x100
    ensures StatusOf(code).Some? ==> StatusCode(StatusOf(code).value) == code
  {
  }

  lemma {:induction false} CommandField(c: Command, t: seq<bool>)
    ensures ReadCommand(ToBits(CommandCode(c), 4) + t) == Got(c, t)
  {
    CommandCodes(c, 0);
    Pow2Small(4);
    FieldFits(CommandCode(c), 4, t);
  }

  lemma {:induction false} MsgTypeField(m: MsgType, t: seq<bool>)
    ensures ReadMsgType(ToBits(MsgTypeCode(m), 8) + t) == Got(m, t)
  {
    MsgTypeCodes(m, 0);
    Pow2Small(8);
    FieldFits(MsgTypeCode(m), 8, t);
  }

  lemma {:induction false} StatusField(s: ResponseStatus, t: seq<bool>)
    ensures ReadStatus(ToBits(StatusCode(s), 8) + t) == Got(s, t)
  {
    StatusCodes(s, 0);
    Pow2Small(8);
    FieldFits(StatusCode(s), 8, t);
  }

  lemma {:induction false} U8Field(v: u8, n: nat, t: seq<bool>)
    requires n <= 8 && v < Pow2(n)
    ensures ReadU8(ToBits(v, n) + t, n) == Got(v, t)
  {
    FieldFits(v, n, t);
  }

  lemma {:induction false} U24Field(v: u32, t: seq<bool>)
    requires v < MAX_24
    ensures ReadU24(ToBits(v, 24) + t) == Got(v, t)
  {
    Pow2Small(24);
    FieldFits(v, 24, t);
  }

  // ----- packets on bits -----

  lemma {:induction false} Assoc(a: seq<bool>, b: seq<bool>, t: seq<bool>)
    ensures a + (b + t) == (a + b) + t
  {
  }

  /** Four fields and a body in front of `t`, regrouped. */
  lemma {:induction false} FieldsAppend(
      f1: seq<bool>, f2: seq<bool>, f3: seq<bool>, f4: seq<bool>, u: seq<bool>, t: seq<bool>)
    ensures f1 + (f2 + (f3 + (f4 + (u + t)))) == (f1 + (f2 + (f3 + (f4 + (u + []))))) + t
  {
    assert u + [] == u;
    Assoc(f4, u, t);
    Assoc(f3, f4 + u, t);
    Assoc(f2, f3 + (f4 + u), t);
    Assoc(f1, f2 + (f3 + (f4 + u)), t);
  }

  lemma {:induction false} PutAppends(p: Packet, t: seq<bool>)
    ensures Put(p, t) == Put(p, []) + t
  {
    hide ToBits, Unpack, CommandCode, StatusCode, MsgTypeCode;
    match p
    case RequestPacket(r) =>
      var f2, f3, f4, f5 :=
        ToBits(CommandCode(r.command), 4), ToBits(r.id, 24), ToBits(r.timeout, 8), ToBits(r.bodyLen, 24);
      FieldsAppend(f2, f3, f4, f5, Unpack(r.body), t);
      Assoc(ToBits(r.reserved, 2), f2 + (f3 + (f4 + (f5 + (Unpack(r.body) + [])))), t);
      Assoc(ToBits(0, 2), PutRequest(r, []), t);
    case ResponsePacket(r) =>
      var f2, f3, f4, f5 :=
        ToBits(CommandCode(r.command), 4), ToBits(r.id, 24), ToBits(StatusCode(r.status), 8), ToBits(r.bodyLen, 24);
      FieldsAppend(f2, f3, f4, f5, Unpack(r.body), t);
      Assoc(ToBits(r.reserved, 2), f2 + (f3 + (f4 + (f5 + (Unpack(r.body) + [])))), t);
      Assoc(ToBits(1, 2), PutResponse(r, []), t);
    case PushPacket(r) =>
      FieldsAppend(ToBits(r.reserved, 2), ToBits(CommandCode(r.command), 4), ToBits(MsgTypeCode(r.msgType), 8),
                   ToBits(r.bodyLen, 24), Unpack(r.body), t);
      Assoc(ToBits(2, 2), PutPush(r, []), t);
  }

  lemma {:induction false} RequestRead(r: Request, t: seq<bool>)
    requires WellFormed(RequestPacket(r))
    ensures ReadRequest(PutRequest(r, t)) == Got(r, t)
  {
    var b5 := Unpack(r.body) + t;
    var b4 := ToBits(r.bodyLen, 24) + b5;
    var b3 := ToBits(r.timeout, 8) + b4;
    var b2 := ToBits(r.id, 24) + b3;
    var b1 := ToBits(CommandCode(r.command), 4) + b2;
    Pow2Small(2);
    U8Field(r.reserved, 2, b1);
    CommandField(r.command, b2);
    U24Field(r.id, b3);
    U8Field(r.timeout, 8, b4);
    U24Field(r.bodyLen, b5);
    BytesRoundTrip(r.body, t);
  }

  lemma {:induction false} ResponseRead(r: Response, t: seq<bool>)
    requires WellFormed(ResponsePacket(r))
    ensures ReadResponse(PutResponse(r, t)) == Got(r, t)
  {
    var b5 := Unpack(r.body) + t;
    var b4 := ToBits(r.bodyLen, 24) + b5;
    var b3 := ToBits(StatusCode(r.status), 8) + b4;
    var b2 := ToBits(r.id, 24) + b3;
    var b1 := ToBits(CommandCode(r.command), 4) + b2;
    Pow2Small(2);
    U8Field(r.reserved, 2, b1);
    CommandField(r.command, b2);
    U24Field(r.id, b3);
    StatusField(r.status, b4);
    U24Field(r.bodyLen, b5);
    BytesRoundTrip(r.body, t);
  }

  lemma {:induction false} PushRead(r: Push, t: seq<bool>)
    requires WellFormed(PushPacket(r))
    ensures ReadPush(PutPush(r, t)) == Got(r, t)
  {
    var b4 := Unpack(r.body) + t;
    var b3 := ToBits(r.bodyLen, 24) + b4;
    var b2 := ToBits(MsgTypeCode(r.msgType), 8) + b3;
    var b1 := ToBits(CommandCode(r.command), 4) + b2;
    Pow2Small(2);
    U8Field(r.reserved, 2, b1);
    CommandField(r.command, b2);
    MsgTypeField(r.msgType, b3);
    U24Field(r.bodyLen, b4);
    BytesRoundTrip(r.body, t);
  }

  /** A well-formed packet reads back from the bits it was written to, whatever follows. */
  lemma {:induction false} PutRead(p: Packet, t: seq<bool>)
    requires WellFormed(p)
    ensures ReadPacket(Put(p, t)) == Got(p, t)
  {
    Pow2Small(2);
    match p
    case RequestPacket(r) => RequestRead(r, t); FieldFits(0, 2, PutRequest(r, t));
    case ResponsePacket(r) => ResponseRead(r, t); FieldFits(1, 2, PutResponse(r, t));
    case PushPacket(r) => PushRead(r, t); FieldFits(2, 2, PutPush(r, t));
  }

  lemma {:induction false} CommandCanonical(b: seq<bool>)
    requires ReadCommand(b).Got?
    ensures var r := ReadCommand(b); b == ToBits(CommandCode(r.value), 4) + r.rest
  {
    FieldCanonical(b, 4);
    CommandCodes(Auth, FromBits(b[..4]));
  }

  lemma {:induction false} MsgTypeCanonical(b: seq<bool>)
    requires ReadMsgType(b).Got?
    ensures var r := ReadMsgType(b); b == ToBits(MsgTypeCode(r.value), 8) + r.rest
  {
    FieldCanonical(b, 8);
    MsgTypeCodes(Unknown, FromBits(b[..8]));
  }

  lemma {:induction false} StatusCanonical(b: seq<bool>)
    requires ReadStatus(b).Got?
    ensures var r := ReadStatus(b); b == ToBits(StatusCode(r.value), 8) + r.rest
  {
    FieldCanonical(b, 8);
    StatusCodes(Success, FromBits(b[..8]));
  }

  lemma {:induction false} U8Canonical(b: seq<bool>, n: nat)
    requires n <= 8 && ReadU8(b, n).Got?
    ensures var r := ReadU8(b, n); b == ToBits(r.value, n) + r.rest && r.value < Pow2(n)
  {
    FieldCanonical(b, n);
    FromBitsBound(b[..n]);
  }

  lemma {:induction false} U24Canonical(b: seq<bool>)
    requires ReadU24(b).Got?
    ensures var r := ReadU24(b); b == ToBits(r.value, 24) + r.rest
  {
    FieldCanonical(b, 24);
  }

  lemma {:induction false} RequestReadPut(b: seq<bool>)
    requires ReadRequest(b).Got?
    ensures var r := ReadRequest(b); WellFormed(RequestPacket(r.value)) && b == PutRequest(r.value, r.rest)
  {
    Pow2Small(2);
    U8Canonical(b, 2);
    var b1 := ReadU8(b, 2).rest;
    CommandCanonical(b1);
    var b2 := ReadCommand(b1).rest;
    U24Canonical(b2);
    var b3 := ReadU24(b2).rest;
    U8Canonical(b3, 8);
    var b4 := ReadU8(b3, 8).rest;
    U24Canonical(b4);
    BytesCanonical(ReadU24(b4).rest, ReadU24(b4).value);
  }

  lemma {:induction false} ResponseReadPut(b: seq<bool>)
    requires ReadResponse(b).Got?
    ensures var r := ReadResponse(b); WellFormed(ResponsePacket(r.value)) && b == PutResponse(r.value, r.rest)
  {
    Pow2Small(2);
    U8Canonical(b, 2);
    var b1 := ReadU8(b, 2).rest;
    CommandCanonical(b1);
    var b2 := ReadCommand(b1).rest;
    U24Canonical(b2);
    var b3 := ReadU24(b2).rest;
    StatusCanonical(b3);
    var b4 := ReadStatus(b3).rest;
    U24Canonical(b4);
    BytesCanonical(ReadU24(b4).rest, ReadU24(b4).value);
  }

  lemma {:induction false} PushReadPut(b: seq<bool>)
    requires ReadPush(b).Got?
    ensures var r := ReadPush(b); WellFormed(PushPacket(r.value)) && b == PutPush(r.value, r.rest)
  {
    Pow2Small(2);
    U8Canonical(b, 2);
    var b1 := ReadU8(b, 2).rest;
    CommandCanonical(b1);
    var b2 := ReadCommand(b1).rest;
    MsgTypeCanonical(b2);
    var b3 := ReadMsgType(b2).rest;
    U24Canonical(b3);
    BytesCanonical(ReadU24(b3).rest, ReadU24(b3).value);
  }

  /** Whatever reads as a packet is exactly what that packet writes. */
  lemma {:induction false} ReadPut(b: seq<bool>)
    requires ReadPacket(b).Got?
    ensures var r := ReadPacket(b); WellFormed(r.value) && b == Put(r.value, r.rest)
  {
    FieldCanonical(b, 2);
    var typ := FromBits(b[..2]);
    if typ == 0 { RequestReadPut(b[2..]); }
    if typ == 1 { ResponseReadPut(b[2..]); }
    if typ == 2 { PushReadPut(b[2..]); }
  }

  // ----- headers -----

  lemma {:induction false} RequestHeaderThenBody(b: seq<bool>)
    ensures match ReadRequestHeader(b)
      case Short => ReadRequest(b).Short?
      case Bad => ReadRequest(b).Bad?
      case Got(h, rest) =>
        && |rest| == |b| - 62
        && if |rest| < 8 * h.bodyLen then ReadRequest(b).Short?
           else ReadRequest(b).Got? && HeaderOf(HeaderOfRequest(h), RequestPacket(ReadRequest(b).value))
                && |ReadRequest(b).rest| == |rest| - 8 * h.bodyLen
  {
    match ReadRequestHeader(b)
    case Short =>
    case Bad =>
    case Got(h, rest) => BytesWhenEnough(rest, h.bodyLen);
  }

  lemma {:induction false} ResponseHeaderThenBody(b: seq<bool>)
    ensures match ReadResponseHeader(b)
      case Short => ReadResponse(b).Short?
      case Bad => ReadResponse(b).Bad?
      case Got(h, rest) =>
        && |rest| == |b| - 62
        && if |rest| < 8 * h.bodyLen then ReadResponse(b).Short?
           else ReadResponse(b).Got? && HeaderOf(HeaderOfResponse(h), ResponsePacket(ReadResponse(b).value))
                && |ReadResponse(b).rest| == |rest| - 8 * h.bodyLen
  {
    match ReadResponseHeader(b)
    case Short =>
    case Bad =>
    case Got(h, rest) => BytesWhenEnough(rest, h.bodyLen);
  }

  lemma {:induction false} PushHeaderThenBody(b: seq<bool>)
    ensures match ReadPushHeader(b)
      case Short => ReadPush(b).Short?
      case Bad => ReadPush(b).Bad?
      case Got(h, rest) =>
        && |rest| == |b| - 38
        && if |rest| < 8 * h.bodyLen then ReadPush(b).Short?
           else ReadPush(b).Got? && HeaderOf(HeaderOfPush(h), PushPacket(ReadPush(b).value))
                && |ReadPush(b).rest| == |rest| - 8 * h.bodyLen
  {
    match ReadPushHeader(b)
    case Short =>
    case Bad =>
    case Got(h, rest) => BytesWhenEnough(rest, h.bodyLen);
  }

  /** The header reader and the packet reader agree: same fields, same verdict, body read iff it is all there. */
  lemma {:induction false} HeaderThenBody(b: seq<bool>)
    ensures match ReadHeader(b)
      case Short => ReadPacket(b).Short?
      case Bad => ReadPacket(b).Bad?
      case Got(h, rest) =>
        && |rest| == |b| - 8 * (NeedBytes(h) - HeaderBodyLen(h))
        && if |b| < 8 * NeedBytes(h) then ReadPacket(b).Short?
           else ReadPacket(b).Got? && HeaderOf(h, ReadPacket(b).value) && |ReadPacket(b).rest| == |b| - 8 * NeedBytes(h)
  {
    if |b| >= 2 {
      var typ := FromBits(b[..2]);
      if typ == 0 {
        RequestHeaderThenBody(b[2..]);
      } else if typ == 1 {
        ResponseHeaderThenBody(b[2..]);
      } else if typ == 2 {
        PushHeaderThenBody(b[2..]);
      }
    }
  }

  function HeaderBodyLen(h: PacketHeader): nat {
    match h
    case HeaderOfRequest(r) => r.bodyLen
    case HeaderOfResponse(r) => r.bodyLen
    case HeaderOfPush(r) => r.bodyLen
  }

  /** `more` is what `less` becomes when the bits `t` are appended to the input. */
  ghost predicate Extended<T(!new)>(less: Read<T>, more: Read<T>, t: seq<bool>) {
    && (less.Got? ==> more == Got(less.value, less.rest + t))
    && (less.Bad? ==> more.Bad?)
  }

  lemma {:induction false} FieldExtends(b: seq<bool>, n: nat, t: seq<bool>)
    ensures Extended(ReadUInt(b, n), ReadUInt(b + t, n), t)
    ensures n <= 8 ==> Extended(ReadU8(b, n), ReadU8(b + t, n), t)
  {
    if n <= |b| {
      assert (b + t)[..n] == b[..n] && (b + t)[n..] == b[n..] + t;
    }
  }

  lemma {:induction false} EnumsExtend(b: seq<bool>, t: seq<bool>)
    ensures Extended(ReadCommand(b), ReadCommand(b + t), t)
    ensures Extended(ReadMsgType(b), ReadMsgType(b + t), t)
    ensures Extended(ReadStatus(b), ReadStatus(b + t), t)
  {
    FieldExtends(b, 4, t);
    FieldExtends(b, 8, t);
  }

  lemma {:induction false} U24Extends(b: seq<bool>, t: seq<bool>)
    ensures Extended(ReadU24(b), ReadU24(b + t), t)
  {
    FieldExtends(b, 24, t);
  }

  lemma {:induction false} RequestHeaderExtends(b: seq<bool>, t: seq<bool>)
    ensures Extended(ReadRequestHeader(b), ReadRequestHeader(b + t), t)
  {
    FieldExtends(b, 2, t);
    if ReadU8(b, 2).Got? {
      var b1 := ReadU8(b, 2).rest;
      EnumsExtend(b1, t);
      if ReadCommand(b1).Got? {
        var b2 := ReadCommand(b1).rest;
        U24Extends(b2, t);
        if ReadU24(b2).Got? {
          var b3 := ReadU24(b2).rest;
          FieldExtends(b3, 8, t);
          if ReadU8(b3, 8).Got? { U24Extends(ReadU8(b3, 8).rest, t); }
        }
      }
    }
  }

  lemma {:induction false} ResponseHeaderExtends(b: seq<bool>, t: seq<bool>)
    ensures Extended(ReadResponseHeader(b), ReadResponseHeader(b + t), t)
  {
    FieldExtends(b, 2, t);
    if ReadU8(b, 2).Got? {
      var b1 := ReadU8(b, 2).rest;
      EnumsExtend(b1, t);
      if ReadCommand(b1).Got? {
        var b2 := ReadCommand(b1).rest;
        U24Extends(b2, t);
        if ReadU24(b2).Got? {
          var b3 := ReadU24(b2).rest;
          EnumsExtend(b3, t);
          if ReadStatus(b3).Got? { U24Extends(ReadStatus(b3).rest, t); }
        }
      }
    }
  }

  lemma {:induction false} PushHeaderExtends(b: seq<bool>, t: seq<bool>)
    ensures Extended(ReadPushHeader(b), ReadPushHeader(b + t), t)
  {
    FieldExtends(b, 2, t);
    if ReadU8(b, 2).Got? {
      var b1 := ReadU8(b, 2).rest;
      EnumsExtend(b1, t);
      if ReadCommand(b1).Got? {
        var b2 := ReadCommand(b1).rest;
        EnumsExtend(b2, t);
        if ReadMsgType(b2).Got? { U24Extends(ReadMsgType(b2).rest, t); }
      }
    }
  }

  /** More input never changes a verdict the header reader has reached. */
  lemma {:induction false} HeaderExtends(b: seq<bool>, t: seq<bool>)
    ensures Extended(ReadHeader(b), ReadHeader(b + t), t)
  {
    FieldExtends(b, 2, t);
    if |b| >= 2 {
      RequestHeaderExtends(b[2..], t);
      ResponseHeaderExtends(b[2..], t);
      PushHeaderExtends(b[2..], t);
    }
  }

  // ----- packets on bytes -----

  /** Bits that start with a packet's are bytes that start with its frame. */
  lemma {:induction false} CutFrame(s: seq<u8>, p: Packet, rest: seq<bool>)
    requires Unpack(s) == Put(p, rest)
    ensures var k := |ToBytes(p)|; k <= |s| && |rest| == 8 * (|s| - k) && s == ToBytes(p) + s[k..]
  {
    hide Put, Pack, Unpack;
    PutLength(p, rest);
    PutLength(p, []);
    var k := |ToBytes(p)|;
    PutAppends(p, rest);
    UnpackDrop(s, k);
    assert Unpack(s)[..8 * k] == Put(p, []);
    UnpackInjective(s[..k], ToBytes(p));
    assert s == s[..k] + s[k..];
  }

  /** The bit cursor handed from one parse to the next is always zero: frames are whole bytes. */
  lemma {:induction false} ParsedIsWritten(s: seq<u8>)
    requires PacketFromBytes(s, 0).Parsed?
    ensures var r := PacketFromBytes(s, 0);
      && WellFormed(r.value) && r.cursor == 0
      && s == ToBytes(r.value) + r.rest
      && |s| - |r.rest| == TotalBytes(r.value)
  {
    var b := Unpack(s);
    assert b[0..] == b;
    var r := ReadPacket(b);
    ReadPut(b);
    CutFrame(s, r.value, r.rest);
  }

  /** Encoding then decoding, with anything behind: exact for the well-formed packets and for no others. */
  lemma {:induction false} RoundTrip(p: Packet, tail: seq<u8>)
    ensures PacketFromBytes(ToBytes(p) + tail, 0) == Parsed(tail, 0, p) <==> WellFormed(p)
  {
    var s := ToBytes(p) + tail;
    if WellFormed(p) {
      var b := Unpack(s);
      assert b[0..] == b;
      UnpackConcat(ToBytes(p), tail);
      PutAppends(p, Unpack(tail));
      PutRead(p, Unpack(tail));
      assert s[|ToBytes(p)|..] == tail;
    }
    if PacketFromBytes(s, 0) == Parsed(tail, 0, p) {
      ParsedIsWritten(s);
    }
  }

  lemma {:induction false} FrameStable(p: Packet, rest: seq<u8>, t: seq<u8>)
    requires WellFormed(p)
    ensures PacketFromBytes(ToBytes(p) + rest + t, 0) == Parsed(rest + t, 0, p)
  {
    hide PacketFromBytes, ToBytes, WellFormed;
    RoundTrip(p, rest + t);
    assert ToBytes(p) + rest + t == ToBytes(p) + (rest + t);
  }

  /** A packet that was read is read again, whatever is appended. */
  lemma {:induction false} ParsedStable(s: seq<u8>, t: seq<u8>)
    requires PacketFromBytes(s, 0).Parsed?
    ensures var r := PacketFromBytes(s, 0); PacketFromBytes(s + t, 0) == Parsed(r.rest + t, 0, r.value)
  {
    hide PacketFromBytes, ToBytes, WellFormed;
    ParsedIsWritten(s);
    FrameStable(PacketFromBytes(s, 0).value, PacketFromBytes(s, 0).rest, t);
  }

  /** No frame is a proper prefix of another, and no two packets share a frame. */
  lemma {:induction false} PrefixFree(p: Packet, q: Packet)
    requires WellFormed(p) && WellFormed(q)
    requires ToBytes(p) <= ToBytes(q)
    ensures p == q
  {
    hide PacketFromBytes, ToBytes, WellFormed;
    var t := ToBytes(q)[|ToBytes(p)|..];
    assert ToBytes(q) == ToBytes(p) + t && ToBytes(q) == ToBytes(q) + [];
    RoundTrip(p, t);
    RoundTrip(q, []);
  }

  /** parse_packet_buf may trust the header: both readers agree on every input. */
  lemma {:induction false} HeaderAgreement(s: seq<u8>)
    ensures match HeaderFromBytes(s, 0)
      case Incomplete => PacketFromBytes(s, 0).Incomplete?
      case ParseError => PacketFromBytes(s, 0).ParseError?
      case Parsed(_, _, h) =>
        && MIN_PACKET_HEADER_SIZE <= NeedBytes(h)
        && if |s| < NeedBytes(h) then PacketFromBytes(s, 0).Incomplete?
           else var r := PacketFromBytes(s, 0);
             r.Parsed? && HeaderOf(h, r.value) && TotalBytes(r.value) == NeedBytes(h) && r.rest == s[NeedBytes(h)..]
    ensures |s| < MIN_PACKET_HEADER_SIZE ==> !HeaderFromBytes(s, 0).Parsed?
  {
    hide ReadPacket, ReadHeader, Unpack;
    var b := Unpack(s);
    assert b[0..] == b;
    HeaderThenBody(b);
  }

  /** A header, once read, stays; a parse error, once met, stays. */
  lemma {:induction false} HeaderStable(s: seq<u8>, t: seq<u8>)
    ensures HeaderFromBytes(s, 0).Parsed? ==>
      HeaderFromBytes(s + t, 0).Parsed? && HeaderFromBytes(s + t, 0).value == HeaderFromBytes(s, 0).value
    ensures HeaderFromBytes(s, 0).ParseError? ==> HeaderFromBytes(s + t, 0).ParseError?
  {
    UnpackConcat(s, t);
    var b := Unpack(s);
    assert b[0..] == b && Unpack(s + t)[0..] == b + Unpack(t);
    HeaderExtends(b, Unpack(t));
    HeaderThenBody(b);
    HeaderThenBody(b + Unpack(t));
  }
}
