/**
 * The sending half of quic_process_loop (link/src/transport/link.rs): the ticker arm and the quic_data_send_rx arm,
 * on top of a QUIC stream that may take any part of what it is offered.
 */
module LinkWrite {
  import opened Bits
  import opened SimpleBuffers

  // ----- the stream -----

  /** The stream's answers to come, chosen by the network: take at most n + 1 bytes, refuse, or fail. */
  datatype Grant = Take(n: nat) | Blocked | Broken

  /**
   * A send stream. Accepted bytes are delivered reliably and in order (section 2.2 of RFC 9000); flow control may
   * refuse more (section 4 of RFC 9000). Environment axiom: once a write was refused, writes stay refused until the
   * connection does something else (`recv`, `send`, `on_timeout`); that is the `done` flag.
   */
  datatype Stream = Stream(written: seq<u8>, done: bool, grants: seq<Grant>)

  datatype SendResult = Sent(n: nat) | Done | SendError

  function StreamSend(s: Stream, b: seq<u8>): (Stream, SendResult)
    requires b != []
  {
    if s.done || s.grants == [] then (s.(done := true), Done) else
    var later := s.(grants := s.grants[1..]);
    match s.grants[0]
    case Blocked => (later.(done := true), Done)
    case Broken => (later, SendError)
    case Take(k) =>
      var n := if k < |b| then k + 1 else |b|;
      (later.(written := s.written + b[..n]), Sent(n))
  }

  /** conn.send, conn.recv or conn.on_timeout: the connection moved, so the next write may be answered anew. */
  function ConnMoves(s: Stream): Stream {
    s.(done := false)
  }

  class QuicStream {
    var written: seq<u8>
    var done: bool
    var grants: seq<Grant>

    ghost function View(): Stream
      reads this
    {
      Stream(written, done, grants)
    }

    constructor (grants: seq<Grant>)
      ensures View() == Stream([], false, grants)
    {
      written, done := [], false;
      this.grants := grants;
    }

    method Send(b: seq<u8>) returns (r: SendResult)
      requires b != []
      modifies this
      ensures (View(), r) == StreamSend(old(View()), b)
    {
      if done || grants == [] {
        done := true;
        return Done;
      }
      var g := grants[0];
      grants := grants[1..];
      match g
      case Blocked => done := true; return Done;
      case Broken => return SendError;
      case Take(k) =>
        var n := if k < |b| then k + 1 else |b|;
        written := written + b[..n];
        return Sent(n);
    }

    method Move()
      modifies this
      ensures View() == ConnMoves(old(View()))
    {
      done := false;
    }
  }

  // ----- the sender -----

  datatype SendStop = Running | StreamFailed | SecondCheckFailed | PushFailed

  /** Stream, backlog, the frames taken on so far, and those dropped for size, each in arrival order. */
  datatype Sender = Sender(
    stream: Stream, backlog: Buf, accepted: seq<seq<u8>>, dropped: seq<seq<u8>>, stop: SendStop)

  function NewSender(capacity: nat, grants: seq<Grant>): Sender {
    Sender(Stream([], false, grants), EmptyBuf(capacity), [], [], Running)
  }

  /** The stream_send loop over the backlog, the same in both arms. */
  function Flush(w: Sender): (r: Sender)
    decreases |w.backlog.bytes|
  {
    if w.backlog.bytes == [] then w else
    var (s, res) := StreamSend(w.stream, w.backlog.bytes);
    match res
    case Done => w.(stream := s)
    case SendError => w.(stream := s, stop := StreamFailed)
    case Sent(n) => Flush(w.(stream := ConnMoves(s), backlog := w.backlog.Free(n)))
  }

  lemma {:induction false} FlushUnfold(w: Sender)
    ensures Flush(w) ==
      if w.backlog.bytes == [] then w else
      var (s, res) := StreamSend(w.stream, w.backlog.bytes);
      if res.Done? then w.(stream := s)
      else if res.SendError? then w.(stream := s, stop := StreamFailed)
      else Flush(w.(stream := ConnMoves(s), backlog := w.backlog.Free(res.n)))
    ensures w.backlog.bytes != [] && StreamSend(w.stream, w.backlog.bytes).1.Sent? ==>
      1 <= StreamSend(w.stream, w.backlog.bytes).1.n <= |w.backlog.bytes|
  {
  }

  datatype Direct = Direct(stream: Stream, sent: nat, failed: bool)

  /** The stream_send loop over the bytes of a new frame from `sent` on. */
  function SendDirect(s: Stream, b: seq<u8>, sent: nat): (d: Direct)
    requires sent <= |b|
    ensures sent <= d.sent <= |b|
    decreases |b| - sent
  {
    if sent == |b| then Direct(s, sent, false) else
    var (s1, res) := StreamSend(s, b[sent..]);
    match res
    case Done => Direct(s1, sent, false)
    case SendError => Direct(s1, sent, true)
    case Sent(n) => SendDirect(ConnMoves(s1), b, sent + n)
  }

  predicate Oversize(buf: Buf, b: seq<u8>) {
    |buf.bytes| < |b| && buf.MaxLen() < |b|
  }

  function CompactFor(buf: Buf, b: seq<u8>): Buf {
    if |buf.bytes| < |b| then buf.Reuse() else buf
  }

  /** Parks what the stream did not take of the frame. */
  function Park(w: Sender, b: seq<u8>, d: Direct): Sender
    requires d.sent <= |b|
  {
    var w1 := w.(stream := d.stream);
    if d.failed then w1.(accepted := w.accepted + [b], stop := StreamFailed) else
    if d.sent == |b| then w1.(accepted := w.accepted + [b]) else
    if Oversize(w.backlog, b) then w1.(stop := SecondCheckFailed) else
    var buf := CompactFor(w.backlog, b);
    if buf.Tail() < |b| - d.sent then w1.(backlog := buf, stop := PushFailed) else
    w1.(backlog := buf.Push(b[d.sent..]), accepted := w.accepted + [b])
  }

  /** The quic_data_send_rx arm on one frame. */
  function OnFrame(w: Sender, b: seq<u8>): Sender {
    if w.stop != Running then w else
    var w1 := Flush(w);
    if w1.stop != Running then w1 else
    var w2 := w1.(backlog := w1.backlog.ReuseIf());
    if Oversize(w2.backlog, b) then w2.(dropped := w2.dropped + [b]) else
    var w3 := w2.(backlog := CompactFor(w2.backlog, b));
    Park(w3, b, SendDirect(w3.stream, b, 0))
  }

  /** The ticker arm; `timerFired` is whether the connection's own timer was due. */
  function OnTick(w: Sender, timerFired: bool): Sender {
    if w.stop != Running then w else
    var w1 := Flush(w);
    if timerFired && w1.stop == Running then w1.(stream := ConnMoves(w1.stream)) else w1
  }

  /** Every other arm of the loop only moves the connection. */
  function OnNetwork(w: Sender): Sender {
    if w.stop != Running then w else w.(stream := ConnMoves(w.stream))
  }

  /** The last event is any other way out of the loop: the connection timed out, was closed, or broke. */
  datatype Event = FrameArrives(b: seq<u8>) | Tick(timerFired: bool) | Network | ConnEnds

  function OnConnEnd(w: Sender): Sender {
    if w.stop != Running then w else w.(stop := StreamFailed)
  }

  function OnEvent(w: Sender, e: Event): Sender {
    match e
    case FrameArrives(b) => OnFrame(w, b)
    case Tick(timerFired) => OnTick(w, timerFired)
    case Network => OnNetwork(w)
    case ConnEnds => OnConnEnd(w)
  }

  function OnEvents(w: Sender, events: seq<Event>): Sender {
    if events == [] then w else OnEvent(OnEvents(w, events[..|events| - 1]), events[|events| - 1])
  }

  // ----- the loop itself -----

  class QuicSender {
    const conn: QuicStream
    const streamSendBuffer: SimpleBuf
    ghost var accepted: seq<seq<u8>>
    ghost var dropped: seq<seq<u8>>
    var stop: SendStop

    ghost predicate Valid()
      reads this, streamSendBuffer
    {
      streamSendBuffer.Valid()
    }

    ghost function View(): Sender
      requires Valid()
      reads this, conn, streamSendBuffer, streamSendBuffer.data
    {
      Sender(conn.View(), streamSendBuffer.View(), accepted, dropped, stop)
    }

    constructor (capacity: nat, grants: seq<Grant>)
      ensures Valid() && fresh(conn) && fresh(streamSendBuffer) && fresh(streamSendBuffer.data)
      ensures View() == NewSender(capacity, grants)
    {
      conn := new QuicStream(grants);
      streamSendBuffer := new SimpleBuf(capacity);
      accepted, dropped, stop := [], [], Running;
    }

    method FlushBacklog()
      requires Valid() && stop == Running
      modifies this`stop, conn, streamSendBuffer
      ensures Valid()
      ensures View() == Flush(old(View()))
    {
      hide Flush, StreamSend;
      var pending := streamSendBuffer.OccupiedSlice();
      while pending != []
        invariant Valid() && stop == Running
        invariant pending == streamSendBuffer.View().bytes
        invariant Flush(View()) == Flush(old(View()))
        invariant accepted == old(accepted) && dropped == old(dropped)
        decreases |pending|
      {
        FlushUnfold(View());
        var res := conn.Send(pending);
        match res
        case Done =>
          assert View().backlog.bytes == pending;
          return;
        case SendError =>
          stop := StreamFailed;
          return;
        case Sent(n) =>
          var freed := streamSendBuffer.Free(n);
          conn.Move();
          pending := streamSendBuffer.OccupiedSlice();
      }
      FlushUnfold(View());
    }

    method SendDirectly(b: seq<u8>) returns (sent: nat, failed: bool)
      modifies conn
      ensures sent <= |b|
      ensures Direct(conn.View(), sent, failed) == SendDirect(old(conn.View()), b, 0)
    {
      sent, failed := 0, false;
      while sent < |b|
        invariant sent <= |b| && !failed
        invariant SendDirect(conn.View(), b, sent) == SendDirect(old(conn.View()), b, 0)
        decreases |b| - sent
      {
        var res := conn.Send(b[sent..]);
        match res
        case Done =>
          return;
        case SendError =>
          failed := true;
          return;
        case Sent(n) =>
          sent := sent + n;
          conn.Move();
      }
    }

    method ParkUnsent(b: seq<u8>, sent: nat, failed: bool)
      requires Valid() && stop == Running && sent <= |b|
      modifies this, streamSendBuffer, streamSendBuffer.data
      ensures Valid()
      ensures View() == Park(old(View()), b, Direct(conn.View(), sent, failed))
    {
      if failed {
        accepted, stop := accepted + [b], StreamFailed;
        return;
      }
      if sent != |b| {
        var len := streamSendBuffer.Len();
        var maxLen := streamSendBuffer.MaxLen();
        if len < |b| {
          if maxLen < |b| {
            stop := SecondCheckFailed;
            return;
          }
          streamSendBuffer.Reuse();
        }
        var pushed := streamSendBuffer.PushSlice(b[sent..]);
        if !pushed {
          stop := PushFailed;
          return;
        }
      }
      accepted := accepted + [b];
    }

    /** Compacts the backlog so that it could take the whole frame, or finds that it never could. */
    method MakeRoom(b: seq<u8>) returns (fits: bool)
      requires Valid()
      modifies streamSendBuffer, streamSendBuffer.data
      ensures Valid()
      ensures var buf := old(View()).backlog.ReuseIf();
        && fits == !Oversize(buf, b)
        && View() == old(View()).(backlog := if fits then CompactFor(buf, b) else buf)
    {
      var reused := streamSendBuffer.ReuseIf();
      var len := streamSendBuffer.Len();
      var maxLen := streamSendBuffer.MaxLen();
      if len < |b| {
        if maxLen < |b| {
          return false;
        }
        streamSendBuffer.Reuse();
      }
      return true;
    }

    method SendFrame(b: seq<u8>)
      requires Valid() && stop == Running
      modifies this, conn, streamSendBuffer, streamSendBuffer.data
      ensures Valid()
      ensures View() == OnFrame(old(View()), b)
    {
      hide Flush, SendDirect, Oversize, CompactFor;
      FlushBacklog();
      if stop != Running {
        return;
      }
      var fits := MakeRoom(b);
      if !fits {
        dropped := dropped + [b];
        return;
      }
      var sent, failed := SendDirectly(b);
      ParkUnsent(b, sent, failed);
    }

    method TickerTick(timerFired: bool)
      requires Valid() && stop == Running
      modifies this, conn, streamSendBuffer
      ensures Valid()
      ensures View() == OnTick(old(View()), timerFired)
    {
      FlushBacklog();
      if timerFired && stop == Running {
        conn.Move();
      }
    }
  }

  /** The loop over its events until they run out or it breaks. */
  method QuicProcessLoop(capacity: nat, grants: seq<Grant>, events: seq<Event>)
    returns (written: seq<u8>, backlog: seq<u8>, stop: SendStop)
    ensures var w := OnEvents(NewSender(capacity, grants), events);
      written == w.stream.written && backlog == w.backlog.bytes && stop == w.stop
  {
    var q := new QuicSender(capacity, grants);
    var k := 0;
    while k < |events| && q.stop == Running
      invariant 0 <= k <= |events|
      invariant q.Valid() && fresh(q) && fresh(q.conn) && fresh(q.streamSendBuffer) && fresh(q.streamSendBuffer.data)
      invariant OnEvents(NewSender(capacity, grants), events[..k]) == q.View()
      decreases |events| - k
    {
      assert events[..k + 1][..k] == events[..k];
      match events[k] {
        case FrameArrives(b) => q.SendFrame(b);
        case Tick(timerFired) => q.TickerTick(timerFired);
        case Network => q.conn.Move();
        case ConnEnds => q.stop := StreamFailed;
      }
      k := k + 1;
    }
    StoppedSendsNothing(NewSender(capacity, grants), events, k);
    backlog := q.streamSendBuffer.OccupiedSlice();
    written, stop := q.conn.written, q.stop;
  }

  lemma {:induction false} StoppedSendsNothing(w: Sender, events: seq<Event>, k: nat)
    requires k <= |events|
    requires k == |events| || OnEvents(w, events[..k]).stop != Running
    ensures OnEvents(w, events) == OnEvents(w, events[..k])
  {
    if k == |events| {
      assert events[..k] == events;
    } else {
      var before := events[..|events| - 1];
      assert before[..k] == events[..k];
      StoppedSendsNothing(w, before, k);
    }
  }
}
