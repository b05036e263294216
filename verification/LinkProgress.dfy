/** The link can always deliver: if nothing failed and the network goes on taking bytes, all packets can come out. */
module LinkProgress {
  import opened Bits
  import opened Packets
  import opened Codec
  import opened LinkRead
  import opened LinkReadProofs
  import opened ReaderSpace
  import opened LinkSystem
  import W = LinkWrite
  import WP = LinkWriteProofs

  /** Some steps lead from `a` to `b`. */
  ghost predicate Goes(a: Link, b: Link) {
    exists more :: Run(a, more) == b
  }

  lemma {:induction false} GoStep(a: Link, b: Link, step: Step)
    requires Goes(a, b)
    ensures Goes(a, Do(b, step))
  {
    hide Do;
    var more :| Run(a, more) == b;
    RunSnoc(a, more, step);
  }

  lemma {:induction false} GoNowhere(a: Link)
    ensures Goes(a, a)
  {
    assert Run(a, []) == a;
  }

  /** The stream will take at least `n` more bytes before it refuses or fails. */
  ghost predicate Willing(s: W.Stream, n: nat) {
    n <= |s.grants| && forall i :: 0 <= i < |s.grants| ==> s.grants[i].Take?
  }

  /** Whatever a willing stream is offered, it takes. */
  lemma {:induction false} WillingTakes(s: W.Stream, t: W.Stream, offered: nat, sent: nat, failed: bool, n: nat)
    requires WP.WritesEnd(s, t, offered, sent, failed) && !s.done && Willing(s, offered + n)
    ensures sent == offered && !failed && Willing(t, n)
  {
    AllowanceOfTakes(s.grants);
  }

  lemma {:induction false} AllowanceOfTakes(grants: seq<W.Grant>)
    requires forall i :: 0 <= i < |grants| ==> grants[i].Take?
    ensures WP.Allowance(grants) >= |grants|
  {
    if grants != [] { AllowanceOfTakes(grants[1..]); }
  }

  // ----- writing -----

  /** All waiting packets are encoded. */
  lemma {:induction false} EncodeRest(a: Link, s: Link, readCapacity: nat) returns (t: Link)
    requires Goes(a, s) && Inv(s, readCapacity)
    ensures Goes(a, t) && Inv(t, readCapacity)
    ensures t == s.(requests := [], frames := t.frames, framed := s.framed + s.requests)
    ensures |Concat(t.frames)| == |Concat(s.frames)| + |EncodeAll(s.requests)|
    decreases |s.requests|
  {
    hide Inv, ToBytes, Concat, Goes, Do;
    if s.requests == [] {
      t := s;
      assert s.framed + [] == s.framed;
    } else {
      GoStep(a, s, Encode);
      StepKeepsInv(s, Encode, readCapacity);
      EncodeOne(s);
      t := EncodeRest(a, Do(s, Encode), readCapacity);
    }
  }

  lemma {:induction false} EncodeOne(s: Link)
    requires s.requests != []
    ensures var t := Do(s, Encode);
      && t == s.(requests := t.requests, frames := t.frames, framed := t.framed)
      && |t.requests| < |s.requests| && t.framed + t.requests == s.framed + s.requests
      && |Concat(t.frames)| + |EncodeAll(t.requests)| == |Concat(s.frames)| + |EncodeAll(s.requests)|
  {
    hide ToBytes, Concat, EncodeAll, W.OnFrame, W.OnTick, ReadChunk;
    EncodeLengths(s.requests, s.frames);
    MoveAcross(s.framed, s.requests, []);
    assert s.framed + s.requests + [] == s.framed + s.requests;
    assert (s.framed + [s.requests[0]]) + s.requests[1..] + [] == (s.framed + [s.requests[0]]) + s.requests[1..];
  }

  lemma {:induction false} EncodeLengths(ps: seq<Packet>, frames: seq<seq<u8>>)
    requires ps != []
    ensures |Concat(frames + [ToBytes(ps[0])])| + |EncodeAll(ps[1..])| == |Concat(frames)| + |EncodeAll(ps)|
  {
    hide ToBytes, Concat;
    WP.ConcatSnoc(frames, ToBytes(ps[0]));
  }

  /** The backlog is sent. */
  lemma {:induction false} FlushAll(a: Link, s: Link, readCapacity: nat, n: nat) returns (t: Link)
    requires Goes(a, s) && Inv(s, readCapacity) && s.sender.stop == W.Running
    requires Willing(s.sender.stream, |s.sender.backlog.bytes| + n)
    ensures Goes(a, t) && Inv(t, readCapacity)
    ensures t == s.(sender := t.sender) && t.sender.stop == W.Running && t.sender.backlog.bytes == []
    ensures t.sender.backlog.capacity == s.sender.backlog.capacity && Willing(t.sender.stream, n)
  {
    hide Goes, WP.WritesEnd, W.Flush, WP.Conserves;
    GoStep(a, s, Network);
    StepKeepsInv(s, Network, readCapacity);
    var s1 := Do(s, Network);
    GoStep(a, s1, Tick(false));
    StepKeepsInv(s1, Tick(false), readCapacity);
    t := Do(s1, Tick(false));
    var u := TickTakesAll(s1.sender, n);
  }

  lemma {:induction false} TickTakesAll(w: W.Sender, n: nat) returns (u: W.Stream)
    requires WP.Conserves(w) && w.stop == W.Running && !w.stream.done && Willing(w.stream, |w.backlog.bytes| + n)
    ensures var r := W.OnTick(w, false);
      r.stop == W.Running && r.backlog.bytes == [] && r.backlog.capacity == w.backlog.capacity && Willing(r.stream, n)
  {
    hide WP.WritesEnd, W.Flush;
    u := WP.TickOutcome(w, false);
    WP.FlushConserves(w);
    var r := W.OnTick(w, false);
    WillingTakes(w.stream, u, |w.backlog.bytes|, |w.backlog.bytes| - |r.backlog.bytes|, r.stop == W.StreamFailed, n);
  }

  /** With nothing in front of it, a frame that fits is sent whole. */
  lemma {:induction false} FrameTakesAll(w: W.Sender, b: seq<u8>, n: nat)
    requires WP.Conserves(w) && w.stop == W.Running && !w.stream.done && w.backlog.bytes == []
    requires Willing(w.stream, |b| + n) && |b| <= w.backlog.capacity
    ensures var r := W.OnFrame(w, b);
      && r.stop == W.Running && r.backlog.bytes == [] && r.backlog.capacity == w.backlog.capacity
      && r.accepted == w.accepted + [b] && Willing(r.stream, n)
  {
    hide WP.WritesEnd, W.OnFrame;
    assert W.Flush(w) == w by { W.FlushUnfold(w); }
    hide W.Flush;
    WP.FrameOutcome(w, b);
    WP.FrameTakenOn(w, b);
    var r := W.OnFrame(w, b);
    WillingTakes(w.stream, r.stream, |b|, |r.stream.written| - |w.stream.written|, r.stop == W.StreamFailed, n);
    assert b[|b|..] == [] && w.backlog.bytes + b[|b|..] == [];
  }

  /** All frames are sent, each taken on. */
  lemma {:induction false} SendAll(a: Link, s: Link, readCapacity: nat) returns (t: Link)
    requires Goes(a, s) && Inv(s, readCapacity) && s.sender.stop == W.Running && s.sender.backlog.bytes == []
    requires Willing(s.sender.stream, |Concat(s.frames)|)
    requires forall i :: 0 <= i < |s.frames| ==> |s.frames[i]| <= s.sender.backlog.capacity
    ensures Goes(a, t) && Inv(t, readCapacity)
    ensures t == s.(sender := t.sender, frames := [], framed := [], fates := t.fates)
    ensures t.sender.stop == W.Running && t.sender.backlog.bytes == []
    ensures s.fates <= t.fates && forall i :: |s.fates| <= i < |t.fates| ==> t.fates[i].1
    decreases |s.frames|
  {
    hide Goes, WP.Conserves, W.OnFrame, Concat, ReadAll, EncodeAll, Taken, PacketsOf, ToBytes;
    if s.frames == [] {
      t := s;
    } else {
      var b, n := s.frames[0], |Concat(s.frames[1..])|;
      assert s.frames == [b] + s.frames[1..];
      ConcatCons(b, s.frames[1..]);
      GoStep(a, s, Network);
      StepKeepsInv(s, Network, readCapacity);
      var s1 := Do(s, Network);
      FrameTakesAll(s1.sender, b, n);
      GoStep(a, s1, Send);
      StepKeepsInv(s1, Send, readCapacity);
      var s2 := Do(s1, Send);
      t := SendAll(a, s2, readCapacity);
    }
  }

  // ----- reading -----

  /** The next byte is read without a failure, since the buffer holds less than one frame. */
  lemma {:induction false} ReceiveOne(s: Link, readCapacity: nat)
    requires Inv(s, readCapacity) && s.reader.stop == Running && s.chunks == []
    requires s.delivered < |s.sender.stream.written|
    requires FramesAtMost(Taken(s.fates), readCapacity)
    ensures var t := Do(Do(s, Deliver(1)), Receive);
      && Inv(t, readCapacity) && t == s.(delivered := s.delivered + 1, reader := t.reader, received := t.received)
      && t.reader.stop == Running
  {
    hide Inv, Taken, ReadChunk;
    var b := s.sender.stream.written[s.delivered..s.delivered + 1];
    StepKeepsInv(s, Deliver(1), readCapacity);
    StepKeepsInv(Do(s, Deliver(1)), Receive, readCapacity);
    ByteHasRoom(s, readCapacity, b);
    NotMalformed(Do(Do(s, Deliver(1)), Receive), readCapacity);
  }

  lemma {:induction false} ByteHasRoom(s: Link, readCapacity: nat, b: seq<u8>)
    requires Inv(s, readCapacity) && s.reader.stop == Running && s.chunks == [] && |b| == 1
    requires s.delivered < |s.sender.stream.written|
    requires FramesAtMost(Taken(s.fates), readCapacity)
    ensures ReadChunk(s.reader, b).stop in {Running, Malformed}
  {
    hide ReadAll, EncodeAll, Taken, ToBytes, Concat, ReadChunk, WP.Conserves, PacketsOf;
    BufferHasRoom(s, readCapacity);
    ReaderTracksStream(readCapacity, s.received);
    TailNeverUsedUp(readCapacity, s.received);
    SpaceFailureIff(s.reader, b);
  }

  lemma {:induction false} NotMalformed(s: Link, readCapacity: nat)
    requires Inv(s, readCapacity)
    ensures s.reader.stop != Malformed
  {
    hide ReadAll, EncodeAll, Taken, Concat, WP.Conserves;
    ReceivedIsPrefix(s, readCapacity);
    MessagesAreWellFormed(Taken(s.fates));
    ReaderEmitsPrefix(readCapacity, s.received, Taken(s.fates));
  }

  lemma {:induction false} BufferHasRoom(s: Link, readCapacity: nat)
    requires Inv(s, readCapacity) && s.reader.stop == Running && s.chunks == []
    requires s.delivered < |s.sender.stream.written|
    requires FramesAtMost(Taken(s.fates), readCapacity)
    ensures |s.reader.buf.bytes| < readCapacity
  {
    hide ReadAll, EncodeAll, Taken, ToBytes, GreedyParse;
    var ps, fed := Taken(s.fates), Concat(s.received);
    ReceivedIsPrefix(s, readCapacity);
    MessagesAreWellFormed(ps);
    PrefixParse(fed, ps);
    ReaderTracksStream(readCapacity, s.received);
    assert Concat([]) == [] && fed + [] == fed;
    assert |fed| < |EncodeAll(ps)|;
    AllParsedIsAll(fed, ps);
  }

  lemma {:induction false} AllParsedIsAll(fed: seq<u8>, ps: seq<Packet>)
    requires AllWellFormed(ps) && fed <= EncodeAll(ps)
    ensures |GreedyParse(fed).packets| == |ps| ==> fed == EncodeAll(ps)
  {
    hide EncodeAll, GreedyParse, AllWellFormed, ToBytes;
    PrefixParse(fed, ps);
    GreedyIsCanonical(fed);
    if |GreedyParse(fed).packets| == |ps| {
      assert GreedyParse(fed).packets == ps;
      assert EncodeAll(ps) + [] == EncodeAll(ps);
    }
  }

  /** Everything in the stream is read. */
  lemma {:induction false} DeliverAll(a: Link, s: Link, readCapacity: nat) returns (t: Link)
    requires Goes(a, s) && Inv(s, readCapacity) && s.reader.stop == Running && s.chunks == []
    requires FramesAtMost(Taken(s.fates), readCapacity)
    ensures Goes(a, t) && Inv(t, readCapacity)
    ensures t == s.(delivered := |s.sender.stream.written|, reader := t.reader, received := t.received)
    ensures t.reader.stop == Running
    decreases |s.sender.stream.written| - s.delivered
  {
    hide Goes, Do, ReadAll, Taken;
    assert s.delivered <= |s.sender.stream.written|;
    if s.delivered == |s.sender.stream.written| {
      t := s;
    } else {
      hide Inv;
      ReceiveOne(s, readCapacity);
      GoStep(a, s, Deliver(1));
      GoStep(a, Do(s, Deliver(1)), Receive);
      t := DeliverAll(a, Do(Do(s, Deliver(1)), Receive), readCapacity);
    }
  }

  // ----- the theorem -----

  lemma {:induction false} TakenAreSubmitted(fates: seq<(Message, bool)>)
    ensures forall i :: 0 <= i < |Taken(fates)| ==> Taken(fates)[i] in PacketsOf(fates)
  {
    if fates != [] { TakenAreSubmitted(fates[..|fates| - 1]); }
  }

  /** The frames of all packets fit a buffer of this size. */
  ghost predicate Fit(ps: seq<Message>, capacity: nat) {
    forall i :: 0 <= i < |ps| ==> |ToBytes(ps[i])| <= capacity
  }

  /**
   * Progress, from every reachable state: if neither end failed, every frame fits both buffers, nothing waits between
   * stream and reader, and the stream is willing to take what is left to send, then some steps deliver everything: no
   * more frame is refused, and all packets taken on so far and all those still waiting come out, in order.
   */
  lemma {:induction false} CanDeliverAll(
      sendCapacity: nat, readCapacity: nat, grants: seq<W.Grant>, steps: seq<Step>) returns (t: Link)
    requires var s := Run(NewLink(sendCapacity, readCapacity, grants), steps);
      && s.sender.stop == W.Running && s.reader.stop == Running && s.chunks == []
      && Fit(s.submitted, readCapacity) && Fit(s.framed + s.requests, s.sender.backlog.capacity)
      && Willing(s.sender.stream, |s.sender.backlog.bytes| + |Concat(s.frames)| + |EncodeAll(s.requests)|)
    ensures var s := Run(NewLink(sendCapacity, readCapacity, grants), steps);
      && Goes(s, t) && t.submitted == s.submitted && t.requests == [] && t.framed == [] && Drained(t)
      && s.fates <= t.fates && (forall i :: |s.fates| <= i < |t.fates| ==> t.fates[i].1)
      && t.reader.out == Taken(t.fates) && t.submitted == PacketsOf(t.fates)
  {
    hide Run, Do, Goes, Inv, Concat, EncodeAll, ReadAll, Taken, PacketsOf, ToBytes;
    var s := Run(NewLink(sendCapacity, readCapacity, grants), steps);
    RunKeepsInv(sendCapacity, readCapacity, grants, steps);
    GoNowhere(s);
    var s1 := EncodeRest(s, s, readCapacity);
    var s2 := FlushAll(s, s1, readCapacity, |Concat(s1.frames)|);
    FramesFit(s2, readCapacity, s.sender.backlog.capacity);
    var s3 := SendAll(s, s2, readCapacity);
    SubmittedFit(s3, readCapacity);
    t := DeliverAll(s, s3, readCapacity);
    DrainedOut(t, readCapacity);
  }

  lemma {:induction false} FramesFit(s: Link, readCapacity: nat, capacity: nat)
    requires Inv(s, readCapacity) && Fit(s.framed, capacity)
    ensures forall i :: 0 <= i < |s.frames| ==> |s.frames[i]| <= capacity
  {
    hide ToBytes, Concat, EncodeAll, ReadAll, Taken, PacketsOf;
  }

  lemma {:induction false} SubmittedFit(s: Link, readCapacity: nat)
    requires Inv(s, readCapacity) && Fit(s.submitted, readCapacity)
    ensures FramesAtMost(Taken(s.fates), readCapacity)
  {
    hide ToBytes, Concat, EncodeAll, ReadAll, Taken, PacketsOf;
    TakenAreSubmitted(s.fates);
    forall i | 0 <= i < |Taken(s.fates)| ensures |ToBytes(Taken(s.fates)[i])| <= readCapacity {
      assert Taken(s.fates)[i] in s.submitted;
    }
  }

  lemma {:induction false} DrainedOut(s: Link, readCapacity: nat)
    requires Inv(s, readCapacity) && Drained(s)
    ensures s.reader.out == Taken(s.fates)
    ensures s.framed == [] && s.requests == [] ==> s.submitted == PacketsOf(s.fates)
  {
    hide Concat, EncodeAll, Taken, PacketsOf, ReadAll, ToBytes;
    DrainedFeedsAll(s, readCapacity);
    MessagesAreWellFormed(Taken(s.fates));
    ReaderEmitsPrefix(readCapacity, s.received, Taken(s.fates));
    assert PacketsOf(s.fates) + [] + [] == PacketsOf(s.fates);
  }
}
