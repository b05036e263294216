/** The sender keeps frames whole and in order: the stream plus the backlog is what was taken on, and nothing else. */
module LinkWriteProofs {
  import opened Bits
  import opened SimpleBuffers
  import opened LinkWrite

  /** Everything in the sender's care, in sending order. */
  function InCare(w: Sender): seq<u8> {
    w.stream.written + w.backlog.bytes
  }

  /** In every state: stream then backlog are the accepted frames in order; after a stream error, a prefix of them. */
  ghost predicate Conserves(w: Sender) {
    && w.backlog.Valid()
    && w.stop != SecondCheckFailed
    && w.stream.written <= Concat(w.accepted)
    && (w.stop != StreamFailed ==> InCare(w) == Concat(w.accepted))
  }

  /** The bytes the stream takes before it first answers otherwise. */
  function Allowance(grants: seq<Grant>): nat {
    if grants == [] || !grants[0].Take? then 0 else grants[0].n + 1 + Allowance(grants[1..])
  }

  /**
   * What a stretch of writes does, read off the stream's answers alone. It sends as much of what is offered as the
   * stream takes before it first answers otherwise, and uses no further answer. It fails if that one is an error;
   * unless everything was sent, it otherwise leaves a stream that refuses.
   */
  ghost predicate WritesEnd(s: Stream, t: Stream, offered: nat, sent: nat, failed: bool) {
    && sent == (if s.done then 0 else if offered < Allowance(s.grants) then offered else Allowance(s.grants))
    && (offered == 0 ==> t == s)
    && |t.grants| <= |s.grants|
    && var used := |s.grants| - |t.grants|;
    && t.grants == s.grants[used..]
    && (forall i :: 0 <= i < used - 1 ==> s.grants[i].Take?)
    && if failed then sent < offered && used > 0 && s.grants[used - 1].Broken?
       else if sent == offered then used <= sent && (used > 0 ==> s.grants[used - 1].Take?)
       else t.done && ((used == 0 && s.done) || (used > 0 && s.grants[used - 1].Blocked?)
                       || (used == |s.grants| && (used > 0 ==> s.grants[used - 1].Take?)))
  }

  /** Flushing moves bytes from the head of the backlog to the stream; it ends empty, refused or failed. */
  lemma {:induction false} FlushConserves(w: Sender)
    requires w.backlog.Valid() && w.stop == Running
    ensures var r := Flush(w);
      && r.backlog.Valid() && r.backlog.capacity == w.backlog.capacity
      && InCare(r) == InCare(w) && w.stream.written <= r.stream.written
      && r.accepted == w.accepted && r.dropped == w.dropped && r.stop in {Running, StreamFailed}
      && (r.stop == Running ==> r.backlog.bytes == [] || r.stream.done)
    decreases |w.backlog.bytes|
  {
    if w.backlog.bytes != [] {
      var (s, res) := StreamSend(w.stream, w.backlog.bytes);
      match res
      case Done =>
      case SendError =>
      case Sent(n) =>
        var next := w.(stream := ConnMoves(s), backlog := w.backlog.Free(n));
        FlushConserves(next);
        assert InCare(next) == InCare(w) by {
          assert w.backlog.bytes == w.backlog.bytes[..n] + w.backlog.bytes[n..];
        }
    }
  }

  /**
   * The direct path writes a prefix of what is left of the frame, and nothing at all while the stream refuses. It goes
   * on until everything is sent or the stream refuses or fails.
   */
  lemma {:induction false} DirectConserves(s: Stream, b: seq<u8>, sent: nat)
    requires sent <= |b|
    ensures var d := SendDirect(s, b, sent);
      && d.stream.written == s.written + b[sent..d.sent]
      && (s.done ==> d.sent == sent && !d.failed)
      && (d.failed ==> d.sent < |b|)
      && (d.sent == |b| || d.failed || d.stream.done)
      && (sent == |b| ==> d.stream == s)
    decreases |b| - sent
  {
    if sent == |b| {
      assert s.written == s.written + b[sent..sent];
    } else {
      var (s1, res) := StreamSend(s, b[sent..]);
      match res
      case Done => assert s.written == s.written + b[sent..sent];
      case SendError => assert s.written == s.written + b[sent..sent];
      case Sent(n) =>
        DirectConserves(ConnMoves(s1), b, sent + n);
        var d := SendDirect(ConnMoves(s1), b, sent + n);
        assert b[sent..][..n] + b[sent + n..d.sent] == b[sent..d.sent];
    }
  }

  // ----- how much each stretch of writes sends -----

  /** One write, and then the rest of the stretch. */
  lemma {:induction false} WriteThen(s: Stream, b: seq<u8>, t: Stream, more: nat, failed: bool)
    requires b != []
    ensures var (s1, res) := StreamSend(s, b);
      match res
      case Done => WritesEnd(s, s1, |b|, 0, false)
      case SendError => WritesEnd(s, s1, |b|, 0, true)
      case Sent(n) =>
        && 1 <= n <= |b|
        && (WritesEnd(ConnMoves(s1), t, |b| - n, more, failed) ==> WritesEnd(s, t, |b|, n + more, failed))
  {
    var (s1, res) := StreamSend(s, b);
    if res.Sent? {
      assert Allowance(s.grants) == s.grants[0].n + 1 + Allowance(s1.grants);
      hide Allowance;
      if WritesEnd(ConnMoves(s1), t, |b| - res.n, more, failed) {
        var used := |s1.grants| - |t.grants|;
        assert t.grants == s.grants[used + 1..];
        assert forall i :: 0 < i <= used ==> s.grants[i] == s1.grants[i - 1];
      }
    }
  }

  lemma {:induction false} FlushEnds(w: Sender)
    requires w.backlog.Valid() && w.stop == Running
    ensures var r := Flush(w);
      && |r.backlog.bytes| <= |w.backlog.bytes|
      && WritesEnd(w.stream, r.stream, |w.backlog.bytes|, |w.backlog.bytes| - |r.backlog.bytes|, r.stop == StreamFailed)
    decreases |w.backlog.bytes|
  {
    hide StreamSend, Flush, WritesEnd;
    FlushUnfold(w);
    if w.backlog.bytes == [] {
      NoWrites(w.stream);
    } else {
      var (s, res) := StreamSend(w.stream, w.backlog.bytes);
      WriteThen(w.stream, w.backlog.bytes, s, 0, false);
      if res.Sent? {
        var next := w.(stream := ConnMoves(s), backlog := w.backlog.Free(res.n));
        FlushEnds(next);
        var r := Flush(next);
        var sent := |next.backlog.bytes| - |r.backlog.bytes|;
        WriteThen(w.stream, w.backlog.bytes, r.stream, sent, r.stop == StreamFailed);
      }
    }
  }

  lemma {:induction false} NoWrites(s: Stream)
    ensures WritesEnd(s, s, 0, 0, false)
  {
  }

  lemma {:induction false} DirectEnds(s: Stream, b: seq<u8>, sent: nat)
    requires sent <= |b|
    ensures var d := SendDirect(s, b, sent); WritesEnd(s, d.stream, |b| - sent, d.sent - sent, d.failed)
    decreases |b| - sent
  {
    hide StreamSend, WritesEnd;
    if sent == |b| {
      NoWrites(s);
    } else {
      var (s1, res) := StreamSend(s, b[sent..]);
      WriteThen(s, b[sent..], s1, 0, false);
      if res.Sent? {
        DirectEnds(ConnMoves(s1), b, sent + res.n);
        var d := SendDirect(ConnMoves(s1), b, sent + res.n);
        WriteThen(s, b[sent..], d.stream, d.sent - sent - res.n, d.failed);
      }
    }
  }

  /** When a new frame is refused by the sender, none of its bytes is in the stream or the backlog. */
  ghost predicate Untouched(w: Sender, r: Sender) {
    InCare(r) == InCare(w) && r.accepted == w.accepted
  }

  /** The frame is longer than the backlog and does not fit beside it. */
  predicate TooLong(buf: Buf, b: seq<u8>) {
    |buf.bytes| < |b| && |buf.bytes| + |b| > buf.capacity
  }

  /** The frame is no longer than the backlog, and neither the tail nor, if that is used up, all room takes it. */
  predicate Tight(buf: Buf, b: seq<u8>) {
    var end := buf.head + |buf.bytes|;
    b != [] && |b| <= |buf.bytes| && (if end == buf.capacity then |buf.bytes| else end) + |b| > buf.capacity
  }

  /**
   * The fate of one frame, decided by the backlog that the flush leaves. Dropped exactly when it is longer than the
   * backlog and does not fit beside it. Fatal exactly when it is no longer than a non-empty backlog and does not fit
   * behind it; then nothing of it was sent. Otherwise it is taken on behind everything already there. The second
   * capacity check never fires.
   */
  lemma {:induction false} FrameOutcome(w: Sender, b: seq<u8>)
    requires Conserves(w) && w.stop == Running
    ensures var w1 := Flush(w); var r := OnFrame(w, b);
      && Conserves(r)
      && (w1.stop != Running ==> r == w1)
      && (w1.stop == Running && TooLong(w1.backlog, b) ==>
            r.stop == Running && r.dropped == w.dropped + [b] && Untouched(w, r) && r.stream == w1.stream)
      && (w1.stop == Running && Tight(w1.backlog, b) ==>
            r.stop == PushFailed && r.dropped == w.dropped && Untouched(w, r)
            && r.stream.written == w1.stream.written)
      && (w1.stop == Running && !TooLong(w1.backlog, b) && !Tight(w1.backlog, b) ==>
            r.stop in {Running, StreamFailed} && r.dropped == w.dropped && r.accepted == w.accepted + [b])
      && (r.stop == Running ==> r.backlog.bytes == [] || r.stream.done)
  {
    hide Flush, SendDirect, Park, Concat;
    FlushConserves(w);
    var w1 := Flush(w);
    if w1.stop == Running && !TooLong(w1.backlog, b) {
      var w3 := w1.(backlog := CompactFor(w1.backlog.ReuseIf(), b));
      ParkConserves(w3, b);
      ConcatSnoc(w.accepted, b);
    }
  }

  /**
   * A frame that is taken on: the stream gets as much of it as it takes, by its answers, and the backlog the rest.
   * The backlog is compacted when the frame is longer than it, or its tail is used up.
   */
  lemma {:induction false} FrameTakenOn(w: Sender, b: seq<u8>)
    requires Conserves(w) && w.stop == Running && Flush(w).stop == Running
    requires !TooLong(Flush(w).backlog, b) && !Tight(Flush(w).backlog, b)
    ensures var w1 := Flush(w); var buf, r := w1.backlog, OnFrame(w, b);
      |w1.stream.written| <= |r.stream.written| <= |w1.stream.written| + |b| &&
      var n := |r.stream.written| - |w1.stream.written|;
      && r.stream.written == w1.stream.written + b[..n]
      && WritesEnd(w1.stream, r.stream, |b|, n, r.stop == StreamFailed)
      && r.backlog.capacity == buf.capacity
      && r.backlog.head == (if |buf.bytes| < |b| || buf.head + |buf.bytes| == buf.capacity then 0 else buf.head)
      && r.backlog.bytes == (if r.stop == StreamFailed then buf.bytes else buf.bytes + b[n..])
  {
    hide Flush, SendDirect, WritesEnd;
    FlushConserves(w);
    var w1 := Flush(w);
    DirectConserves(w1.stream, b, 0);
    DirectEnds(w1.stream, b, 0);
    var d := SendDirect(w1.stream, b, 0);
    assert b[0..d.sent] == b[..d.sent];
    if d.sent == |b| { assert w1.backlog.bytes + b[d.sent..] == w1.backlog.bytes; }
  }

  /** A tick sends as much of the backlog as the stream takes, by its answers, whatever the connection's timer says. */
  lemma {:induction false} TickOutcome(w: Sender, timerFired: bool) returns (t: Stream)
    requires Conserves(w) && w.stop == Running
    ensures var r := OnTick(w, timerFired);
      && |r.backlog.bytes| <= |w.backlog.bytes|
      && WritesEnd(w.stream, t, |w.backlog.bytes|, |w.backlog.bytes| - |r.backlog.bytes|, r.stop == StreamFailed)
      && r.stream == t.(done := t.done && !(timerFired && r.stop == Running))
      && InCare(r) == InCare(w) && r.accepted == w.accepted && r.dropped == w.dropped
      && r.stop in {Running, StreamFailed} && Conserves(r)
  {
    hide WritesEnd;
    FlushConserves(w);
    FlushEnds(w);
    t := Flush(w).stream;
  }

  /** A refusal ends when the network moves the connection: the next tick sends what the stream then takes. */
  lemma {:induction false} NetworkEndsRefusal(w: Sender, timerFired: bool)
    requires Conserves(w) && w.stop == Running
    ensures var r := OnEvent(OnEvent(w, Network), Tick(timerFired));
      |w.backlog.bytes| - |r.backlog.bytes|
        == if |w.backlog.bytes| < Allowance(w.stream.grants) then |w.backlog.bytes| else Allowance(w.stream.grants)
  {
    hide OnTick, Flush;
    var t := TickOutcome(OnNetwork(w), timerFired);
  }

  /** Once the connection has ended, nothing is sent, parked or taken on any more. */
  lemma {:induction false} ConnEndsForGood(capacity: nat, grants: seq<Grant>, before: seq<Event>, after: seq<Event>)
    ensures var w := OnEvents(NewSender(capacity, grants), before);
      var r := OnEvents(NewSender(capacity, grants), before + [ConnEnds] + after);
      && r.stop != Running && r.stream == w.stream && r.backlog == w.backlog
      && r.accepted == w.accepted && r.dropped == w.dropped
  {
    var w0, ended := NewSender(capacity, grants), before + [ConnEnds];
    assert (ended + after)[..|ended|] == ended && ended[..|before|] == before;
    StoppedSendsNothing(w0, ended + after, |ended|);
  }

  lemma {:induction false} ConcatSnoc(fs: seq<seq<u8>>, b: seq<u8>)
    ensures Concat(fs + [b]) == Concat(fs) + b
  {
    assert (fs + [b])[..|fs|] == fs;
  }

  /** After the flush the direct path cannot overtake: either the backlog is empty or the stream still refuses. */
  lemma {:induction false} ParkConserves(w: Sender, b: seq<u8>)
    requires w.backlog.Valid() && w.stop == Running
    requires w.backlog.bytes == [] || w.stream.done
    requires !Oversize(w.backlog, b) && (|w.backlog.bytes| < |b| ==> w.backlog.head == 0)
    ensures var r := Park(w, b, SendDirect(w.stream, b, 0));
      && r.backlog.Valid() && r.dropped == w.dropped
      && (r.stop == PushFailed <==> b != [] && |b| <= |w.backlog.bytes| && w.backlog.Tail() < |b|)
      && (r.stop == PushFailed ==> Untouched(w, r) && r.stream.written == w.stream.written)
      && (r.stop != PushFailed ==> r.accepted == w.accepted + [b] && r.stop in {Running, StreamFailed})
      && (r.stop == Running ==> InCare(r) == InCare(w) + b && (r.backlog.bytes == [] || r.stream.done))
      && (r.stop == StreamFailed ==> r.stream.written <= InCare(w) + b)
  {
    hide SendDirect;
    DirectConserves(w.stream, b, 0);
    var d := SendDirect(w.stream, b, 0);
    if w.backlog.bytes == [] || b == [] {
      ParkBehindNothing(w, b, d);
    } else {
      ParkWhole(w, b, d);
    }
  }

  lemma {:induction false} ParkBehindNothing(w: Sender, b: seq<u8>, d: Direct)
    requires w.backlog.Valid() && w.stop == Running && (w.backlog.bytes == [] || b == [])
    requires !Oversize(w.backlog, b) && (|w.backlog.bytes| < |b| ==> w.backlog.head == 0)
    requires d.sent <= |b| && d.stream.written == w.stream.written + b[0..d.sent] && (d.failed ==> d.sent < |b|)
    requires d.sent == |b| || d.failed || d.stream.done
    requires w.backlog.bytes == [] || d.stream.done
    ensures var r := Park(w, b, d);
      && r.backlog.Valid() && r.dropped == w.dropped && r.accepted == w.accepted + [b]
      && r.stop in {Running, StreamFailed}
      && (r.stop == Running ==> InCare(r) == InCare(w) + b && (r.backlog.bytes == [] || r.stream.done))
      && (r.stop == StreamFailed ==> r.stream.written <= InCare(w) + b)
  {
    var prefix, rest, written := b[0..d.sent], b[d.sent..], w.stream.written;
    Rejoin(written, prefix, rest);
    assert prefix + rest == b;
    if b == [] {
      assert written + w.backlog.bytes + b == written + w.backlog.bytes && written + prefix == written;
    } else {
      assert [] + rest == rest && written + [] == written;
    }
  }

  lemma {:induction false} Rejoin(a: seq<u8>, b: seq<u8>, c: seq<u8>)
    ensures (a + b) + c == a + (b + c) && a + b <= a + (b + c)
  {
    assert a + b == (a + (b + c))[..|a + b|];
  }

  lemma {:induction false} ParkWhole(w: Sender, b: seq<u8>, d: Direct)
    requires w.backlog.Valid() && w.stop == Running && b != []
    requires !Oversize(w.backlog, b) && (|w.backlog.bytes| < |b| ==> w.backlog.head == 0)
    requires d.sent == 0 && !d.failed && d.stream.written == w.stream.written + b[0..0] && d.stream.done
    ensures var r := Park(w, b, d);
      && r.backlog.Valid() && r.dropped == w.dropped && r.stop in {Running, PushFailed}
      && (r.stop == PushFailed <==> |b| <= |w.backlog.bytes| && w.backlog.Tail() < |b|)
      && (r.stop == PushFailed ==> Untouched(w, r))
      && (r.stop == Running ==> r.accepted == w.accepted + [b] && InCare(r) == InCare(w) + b && r.stream.done)
  {
    assert b[0..] == b && d.stream.written == w.stream.written;
  }

  /** Any run, any schedule of partial writes: frames are sent whole, in arrival order, none twice, none skipped. */
  lemma {:induction false} SenderConserves(capacity: nat, grants: seq<Grant>, events: seq<Event>)
    ensures Conserves(OnEvents(NewSender(capacity, grants), events))
  {
    hide OnFrame, Flush;
    var w0 := NewSender(capacity, grants);
    if events != [] {
      var before := events[..|events| - 1];
      SenderConserves(capacity, grants, before);
      EventConserves(OnEvents(w0, before), events[|events| - 1]);
    }
  }

  lemma {:induction false} EventConserves(w: Sender, e: Event)
    requires Conserves(w)
    ensures Conserves(OnEvent(w, e))
  {
    if w.stop == Running {
      match e
      case FrameArrives(b) => FrameOutcome(w, b);
      case Tick(_) => FlushConserves(w);
      case Network =>
      case ConnEnds =>
    }
  }

  lemma {:induction false} AtMostOneAccepted(w: Sender, b: seq<u8>)
    requires Conserves(w) && w.stop == Running
    ensures OnFrame(w, b).accepted == w.accepted || OnFrame(w, b).accepted == w.accepted + [b]
  {
    hide Conserves, OnFrame, Flush;
    FrameOutcome(w, b);
    FlushAccepts(w);
  }

  lemma {:induction false} FlushAccepts(w: Sender)
    requires Conserves(w) && w.stop == Running
    ensures Flush(w).accepted == w.accepted
  {
    FlushConserves(w);
  }

  /** The stream only ever grows. */
  lemma {:induction false} WrittenGrows(w: Sender, e: Event)
    requires w.backlog.Valid()
    ensures w.stream.written <= OnEvent(w, e).stream.written
  {
    if w.stop == Running {
      match e
      case Network =>
      case ConnEnds =>
      case Tick(_) => FlushConserves(w);
      case FrameArrives(b) =>
        FlushConserves(w);
        var w1 := Flush(w);
        if w1.stop == Running && !Oversize(w1.backlog, b) {
          DirectConserves(w1.stream, b, 0);
        }
    }
  }

  /** Without the axiom that a refusal lasts, the direct path overtakes any backlog whenever the stream takes a byte. */
  lemma {:induction false} OvertakesIfRefusalEnds(w: Sender, b: seq<u8>)
    requires w.backlog.bytes != [] && b != []
    ensures var d := SendDirect(ConnMoves(w.stream), b, 0);
      && (d.sent > 0 <==> w.stream.grants != [] && w.stream.grants[0].Take?)
      && d.stream.written == w.stream.written + b[..d.sent]
  {
    hide SendDirect;
    DirectConserves(ConnMoves(w.stream), b, 0);
    DirectStarts(ConnMoves(w.stream), b);
  }

  lemma {:induction false} DirectStarts(s: Stream, b: seq<u8>)
    requires b != [] && !s.done
    ensures SendDirect(s, b, 0).sent > 0 <==> s.grants != [] && s.grants[0].Take?
  {
    assert b[0..] == b;
  }

  /**
   * A frame can be fatal although the free space would do, as in the reader. Capacity 10, nine bytes parked, five of
   * them sent later; then two new bytes kill the connection with six bytes free.
   */
  lemma {:induction false} SenderRoomIsNotEnough(big: seq<u8>, small: seq<u8>)
    requires |big| == 9 && |small| == 2
    ensures var w := OnEvents(NewSender(10, [Blocked, Take(4)]), [FrameArrives(big), Network, Tick(false)]);
      && w.stop == Running && w.backlog.head == 5 && |w.backlog.bytes| == 4 && w.backlog.MaxLen() == 6
      && OnFrame(w, small).stop == PushFailed
  {
    hide Flush, SendDirect;
    var w0 := NewSender(10, [Blocked, Take(4)]);
    var one: seq<Event> := [FrameArrives(big)];
    var two, three := one + [Network], one + [Network] + [Tick(false)];
    assert three == [FrameArrives(big), Network, Tick(false)];
    assert three[..2] == two && two[..1] == one && one[..0] == [];
    FlushUnfold(w0);
    DirectRefused(w0.stream, big);
    var w1 := w0.(stream := Stream([], true, [Take(4)]), backlog := Buf(10, 0, big), accepted := [big]);
    assert OnFrame(w0, big) == w1 by { assert big[0..] == big && [] + big == big && [] + [big] == [big]; }
    assert OnEvents(w0, one) == w1;
    var w2 := OnNetwork(w1);
    assert OnEvents(w0, two) == w2;
    var w3 := w2.(stream := Stream(big[..5], true, []), backlog := Buf(10, 5, big[5..]));
    var mid := w2.(stream := Stream(big[..5], false, []), backlog := Buf(10, 5, big[5..]));
    assert [] + big[..5] == big[..5];
    assert w2.stream == Stream([], false, [Take(4)]) && w2.stream.grants[1..] == [];
    assert StreamSend(w2.stream, big) == (mid.stream, Sent(5));
    assert w2.(stream := ConnMoves(mid.stream), backlog := w2.backlog.Free(5)) == mid;
    FlushUnfold(w2);
    FlushUnfold(mid);
    assert StreamSend(mid.stream, big[5..]) == (w3.stream, Done);
    assert Flush(w2) == Flush(mid) == w3;
    assert OnEvents(w0, three) == w3;
    FlushUnfold(w3);
    DirectRefused(w3.stream, small);
  }

  lemma {:induction false} DirectRefused(s: Stream, b: seq<u8>)
    requires b != [] && (s.done || s.grants == [] || s.grants[0].Blocked?)
    ensures SendDirect(s, b, 0) == Direct(StreamSend(s, b).0, 0, false)
  {
    assert b[0..] == b;
  }
}
