/** The 24-bit request ids cut from the client's wrapping 32-bit counter. */
module RequestIds {
  import opened Bits
  import opened Packets
  import opened Codec

  /** The counter after `n` calls of fetch_add(1), which wraps. */
  function Counter(start: u32, n: nat): u32 {
    (start + n) % 0x1_0000_0000
  }

  /** The id of allocation number `n`. */
  function NthId(start: u32, n: nat): (id: u32)
    ensures id < MAX_24
  {
    RequestIdTrim(Counter(start, n))
  }

  lemma {:induction false} NthIdIsSum(start: u32, n: nat)
    ensures NthId(start, n) == (start + n) % MAX_24
  {
    var q := (start + n) / 0x1_0000_0000;
    assert start + n == 0x100 * q * MAX_24 + Counter(start, n);
    AddMultiple(Counter(start, n), 0x100 * q, MAX_24);
  }

  lemma {:induction false} AddMultiple(v: nat, q: nat, m: nat)
    requires m >= 1
    ensures (q * m + v) % m == v % m
  {
    var d := v / m;
    assert q * m + v == (q + d) * m + v % m;
    ModUnique(q * m + v, m, q + d, v % m);
  }

  /** Two allocations share an id exactly when their distance is a multiple of 2^24, u32 wrap-around included. */
  lemma {:induction false} IdsCollideIff(start: u32, i: nat, j: nat)
    requires i <= j
    ensures NthId(start, i) == NthId(start, j) <==> (j - i) % MAX_24 == 0
  {
    hide NthId;
    NthIdIsSum(start, i);
    NthIdIsSum(start, j);
    Congruent(start + i, start + j);
  }

  lemma {:induction false} Congruent(a: nat, b: nat)
    requires a <= b
    ensures a % MAX_24 == b % MAX_24 <==> (b - a) % MAX_24 == 0
  {
  }

  /** So any window of 2^24 allocations has pairwise distinct ids. */
  lemma {:induction false} IdsDistinctInWindow(start: u32, i: nat, j: nat)
    requires i < j < i + MAX_24
    ensures NthId(start, i) != NthId(start, j)
  {
    hide NthId;
    IdsCollideIff(start, i, j);
    ModUnique(j - i, MAX_24, 0, j - i);
  }

  /** The constructors make well-formed packets exactly when the body length fits its 24-bit field. */
  lemma {:induction false} ConstructedIsWellFormed(cmd: Command, id: u32, body: seq<u8>)
    ensures WellFormed(NewRequest(cmd, id, body)) <==> |body| < MAX_24
  {
    hide BitAnd;
  }

  /** Responses keep the request's id; a received request always has a well-formed heartbeat response. */
  lemma {:induction false} ResponseIsWellFormed(req: Request, status: ResponseStatus, body: seq<u8>)
    ensures WellFormed(NewResponseFrom(req, status, body)) <==> req.id < MAX_24 && |body| < MAX_24
    ensures WellFormed(RequestPacket(req)) ==> WellFormed(NewHeartbeatResponse(req))
    ensures NewHeartbeatResponse(req).response.id == NewResponseFrom(req, status, body).response.id == req.id
  {
  }

  /** A request id survives encoding, decoding, the peer's echo, encoding and decoding: it comes back trimmed. */
  lemma {:induction false} EchoKeepsId(
      cmd: Command, counter: u32, body: seq<u8>, status: ResponseStatus, reply: seq<u8>, t: seq<u8>, u: seq<u8>)
    requires |body| < MAX_24 && |reply| < MAX_24
    ensures var sent := NewRequest(cmd, counter, body);
      var got := PacketFromBytes(ToBytes(sent) + t, 0);
      got.Parsed? && got.rest == t && got.value == RequestPacket(
        Request(0, cmd, RequestIdTrim(counter), DEFAULT_REQUEST_TIMEOUT, |body|, body)) &&
      var echo := NewResponseFrom(got.value.request, status, reply);
      var back := PacketFromBytes(ToBytes(echo) + u, 0);
      && back.Parsed? && back.rest == u
      && back.value == ResponsePacket(Response(0, cmd, RequestIdTrim(counter), status, |reply|, reply))
  {
    hide PacketFromBytes, ToBytes, BitAnd;
    var sent := NewRequest(cmd, counter, body);
    ConstructedIsWellFormed(cmd, counter, body);
    RoundTrip(sent, t);
    ResponseIsWellFormed(sent.request, status, reply);
    RoundTrip(NewResponseFrom(sent.request, status, reply), u);
  }
}
