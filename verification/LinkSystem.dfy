/**
 * One direction of a link, end to end: the write loop, the sender, the byte stream, the read loop, and the channels
 * between them, interleaved in any order. The whole refines a FIFO queue of packets.
 */
module LinkSystem {
  import opened Bits
  import opened Packets
  import opened Codec
  import opened SimpleBuffers
  import opened LinkRead
  import opened LinkReadProofs
  import W = LinkWrite
  import WP = LinkWriteProofs

  type Message = p: Packet | WellFormed(p) witness PushPacket(Push(0, Auth, Unknown, 0, []))

  datatype Link = Link(
    requests: seq<Message>,           // request_rx, read by link_write_loop
    frames: seq<seq<u8>>,             // quic_data_send, read by quic_process_loop
    sender: W.Sender,
    delivered: nat,                   // bytes the stream has handed to the receiving side
    chunks: seq<seq<u8>>,             // quic_data_recv, read by link_read_loop
    reader: Reader,
    // history
    submitted: seq<Message>,          // packets handed to the link
    framed: seq<Message>,             // the packets behind `frames`
    fates: seq<(Message, bool)>,      // packets the sender has dealt with, and whether it took them on
    received: seq<seq<u8>>)           // chunks the reader has consumed

  datatype Step =
    | Submit(p: Message) | Encode | Send | Tick(timerFired: bool) | Network | ConnEnds
    | Deliver(n: nat) | Receive

  function NewLink(sendCapacity: nat, readCapacity: nat, grants: seq<W.Grant>): Link {
    Link([], [], W.NewSender(sendCapacity, grants), 0, [], NewReader(readCapacity), [], [], [], [])
  }

  /** One step; a step that is not enabled changes nothing. */
  function Do(s: Link, step: Step): Link {
    match step
    case Submit(p) => s.(requests := s.requests + [p], submitted := s.submitted + [p])
    case Encode =>
      if s.requests == [] then s else
      s.(requests := s.requests[1..], frames := s.frames + [ToBytes(s.requests[0])],
         framed := s.framed + [s.requests[0]])
    case Send =>
      if s.frames == [] || s.framed == [] || s.sender.stop != W.Running then s else
      var w := W.OnFrame(s.sender, s.frames[0]);
      s.(frames := s.frames[1..], sender := w, framed := s.framed[1..],
         fates := s.fates + [(s.framed[0], |w.accepted| > |s.sender.accepted|)])
    case Tick(timerFired) => s.(sender := W.OnTick(s.sender, timerFired))
    case Network => s.(sender := W.OnNetwork(s.sender))
    case ConnEnds => s.(sender := W.OnConnEnd(s.sender))
    case Deliver(n) =>
      if n == 0 || s.delivered + n > |s.sender.stream.written| then s else
      s.(delivered := s.delivered + n,
         chunks := s.chunks + [s.sender.stream.written[s.delivered..s.delivered + n]])
    case Receive =>
      if s.chunks == [] || s.reader.stop != Running then s else
      s.(chunks := s.chunks[1..], reader := ReadChunk(s.reader, s.chunks[0]), received := s.received + [s.chunks[0]])
  }

  function Run(s: Link, steps: seq<Step>): Link {
    if steps == [] then s else Do(Run(s, steps[..|steps| - 1]), steps[|steps| - 1])
  }

  /** The packets handed to the link, in order. */
  function SubmittedBy(steps: seq<Step>): seq<Message> {
    if steps == [] then [] else
    var step := steps[|steps| - 1];
    SubmittedBy(steps[..|steps| - 1]) + (if step.Submit? then [step.p] else [])
  }

  lemma {:induction false} SubmittedAre(s: Link, steps: seq<Step>)
    ensures Run(s, steps).submitted == s.submitted + SubmittedBy(steps)
  {
    hide Do;
    if steps == [] {
      assert s.submitted + [] == s.submitted;
    } else {
      SubmittedAre(s, steps[..|steps| - 1]);
      SubmitStep(Run(s, steps[..|steps| - 1]), steps[|steps| - 1]);
    }
  }

  lemma {:induction false} SubmitStep(s: Link, step: Step)
    ensures Do(s, step).submitted == s.submitted + (if step.Submit? then [step.p] else [])
  {
  }

  /** The packets the sender took on, in order. */
  function Taken(fates: seq<(Message, bool)>): seq<Message> {
    if fates == [] then [] else
      var (p, taken) := fates[|fates| - 1];
      Taken(fates[..|fates| - 1]) + (if taken then [p] else [])
  }

  function PacketsOf(fates: seq<(Message, bool)>): seq<Message> {
    if fates == [] then [] else PacketsOf(fates[..|fates| - 1]) + [fates[|fates| - 1].0]
  }

  // ----- the invariant -----

  ghost predicate QueuesMatch(s: Link) {
    && |s.frames| == |s.framed|
    && (forall i :: 0 <= i < |s.frames| ==> s.frames[i] == ToBytes(s.framed[i]))
    && s.submitted == PacketsOf(s.fates) + s.framed + s.requests
  }

  ghost predicate SenderMatches(s: Link) {
    && WP.Conserves(s.sender)
    && Concat(s.sender.accepted) == EncodeAll(Taken(s.fates))
  }

  ghost predicate StreamMatches(s: Link) {
    && s.delivered <= |s.sender.stream.written|
    && Concat(s.received) + Concat(s.chunks) == s.sender.stream.written[..s.delivered]
  }

  ghost predicate Inv(s: Link, readCapacity: nat) {
    && QueuesMatch(s) && SenderMatches(s) && StreamMatches(s)
    && s.reader == ReadAll(NewReader(readCapacity), s.received)
  }

  lemma {:induction false} MessagesAreWellFormed(ps: seq<Message>)
    ensures AllWellFormed(ps)
  {
  }

  lemma {:induction false} EncodeSnoc(ps: seq<Packet>, p: Packet)
    ensures EncodeAll(ps + [p]) == EncodeAll(ps) + ToBytes(p)
  {
    hide ToBytes;
    if ps == [] {
      assert ps + [p] == [p] && [p][1..] == [];
    } else {
      assert (ps + [p])[1..] == ps[1..] + [p];
      EncodeSnoc(ps[1..], p);
    }
  }

  /** link_write_loop over the packets of its channel: one frame per packet, in order. */
  method LinkWriteLoop(requests: seq<Packet>) returns (data: seq<seq<u8>>)
    ensures |data| == |requests| && forall i :: 0 <= i < |data| ==> data[i] == ToBytes(requests[i])
    ensures Concat(data) == EncodeAll(requests)
  {
    hide ToBytes, EncodeAll, Concat;
    data := [];
    var i := 0;
    while i < |requests|
      invariant 0 <= i <= |requests| && |data| == i
      invariant forall k :: 0 <= k < i ==> data[k] == ToBytes(requests[k])
    {
      data := data + [ToBytes(requests[i])];
      i := i + 1;
    }
    FramesConcat(requests, data);
  }

  lemma {:induction false} FramesConcat(ps: seq<Packet>, data: seq<seq<u8>>)
    requires |data| == |ps| && forall i :: 0 <= i < |data| ==> data[i] == ToBytes(ps[i])
    ensures Concat(data) == EncodeAll(ps)
  {
    hide ToBytes;
    if ps != [] {
      hide EncodeAll;
      var last := |ps| - 1;
      var before := ps[..last];
      assert ps == before + [ps[last]];
      FramesConcat(before, data[..last]);
      EncodeSnoc(before, ps[last]);
    }
  }

  lemma {:induction false} ConcatCons(b: seq<u8>, chunks: seq<seq<u8>>)
    ensures Concat([b] + chunks) == b + Concat(chunks)
  {
    if chunks == [] {
      assert [b] + chunks == [b] && [b][..0] == [];
      assert [] + b == b && b + [] == b;
    } else {
      assert ([b] + chunks)[..|chunks|] == [b] + chunks[..|chunks| - 1];
      ConcatCons(b, chunks[..|chunks| - 1]);
    }
  }

  lemma {:induction false} SendKeepsSender(s: Link)
    requires QueuesMatch(s) && SenderMatches(s)
    ensures SenderMatches(Do(s, Send))
  {
    hide ToBytes, W.OnFrame, WP.Conserves, EncodeAll, Taken, PacketsOf, Concat;
    if s.frames != [] && s.sender.stop == W.Running {
      var b, p := s.frames[0], s.framed[0];
      var w := W.OnFrame(s.sender, b);
      WP.EventConserves(s.sender, W.FrameArrives(b));
      WP.AtMostOneAccepted(s.sender, b);
      WP.ConcatSnoc(s.sender.accepted, b);
      EncodeSnoc(Taken(s.fates), p);
      FateSnoc(s.fates, p, |w.accepted| > |s.sender.accepted|);
      assert Taken(s.fates) + [] == Taken(s.fates);
    }
  }

  lemma {:induction false} SendKeepsQueues(s: Link)
    requires QueuesMatch(s)
    ensures QueuesMatch(Do(s, Send))
  {
    hide ToBytes, W.OnFrame, Taken, PacketsOf;
    if s.frames != [] && s.sender.stop == W.Running {
      FateSnoc(s.fates, s.framed[0], |W.OnFrame(s.sender, s.frames[0]).accepted| > |s.sender.accepted|);
      MoveAcross(PacketsOf(s.fates), s.framed, s.requests);
    }
  }

  lemma {:induction false} MoveAcross<T>(a: seq<T>, b: seq<T>, c: seq<T>)
    requires b != []
    ensures (a + [b[0]]) + b[1..] + c == a + b + c
  {
    assert b == [b[0]] + b[1..];
  }

  lemma {:induction false} FateSnoc(fates: seq<(Message, bool)>, p: Message, taken: bool)
    ensures Taken(fates + [(p, taken)]) == Taken(fates) + (if taken then [p] else [])
    ensures PacketsOf(fates + [(p, taken)]) == PacketsOf(fates) + [p]
  {
    var more := fates + [(p, taken)];
    assert more[..|more| - 1] == fates;
  }

  lemma {:induction false} SenderStepKeepsStream(s: Link, e: W.Event, w: W.Sender)
    requires StreamMatches(s) && s.sender.backlog.Valid() && w == W.OnEvent(s.sender, e)
    ensures s.delivered <= |w.stream.written|
    ensures w.stream.written[..s.delivered] == s.sender.stream.written[..s.delivered]
  {
    hide W.OnFrame, W.OnTick;
    WP.WrittenGrows(s.sender, e);
  }

  lemma {:induction false} TickKeepsSender(s: Link, e: W.Event, w: W.Sender)
    requires SenderMatches(s) && !e.FrameArrives? && w == W.OnEvent(s.sender, e)
    ensures WP.Conserves(w) && w.accepted == s.sender.accepted
  {
    WP.EventConserves(s.sender, e);
    if s.sender.stop == W.Running { WP.FlushConserves(s.sender); }
  }

  lemma {:induction false} QueueingKeepsInv(s: Link, step: Step)
    requires QueuesMatch(s) && (step.Submit? || step.Encode?)
    ensures QueuesMatch(Do(s, step))
  {
    hide ToBytes, PacketsOf;
    var done := PacketsOf(s.fates);
    match step
    case Submit(p) =>
      assert done + s.framed + (s.requests + [p]) == s.submitted + [p];
    case Encode =>
      if s.requests != [] {
        var p := s.requests[0];
        assert s.requests == [p] + s.requests[1..];
        assert done + (s.framed + [p]) + s.requests[1..] == done + s.framed + s.requests;
      }
  }

  lemma {:induction false} ReceiveKeepsInv(s: Link, readCapacity: nat)
    requires StreamMatches(s) && s.reader == ReadAll(NewReader(readCapacity), s.received)
    ensures StreamMatches(Do(s, Receive))
    ensures Do(s, Receive).reader == ReadAll(NewReader(readCapacity), Do(s, Receive).received)
  {
    hide ReadChunk;
    if s.chunks != [] && s.reader.stop == Running {
      var b := s.chunks[0];
      assert s.chunks == [b] + s.chunks[1..];
      ConcatCons(b, s.chunks[1..]);
      WP.ConcatSnoc(s.received, b);
      assert (Concat(s.received) + b) + Concat(s.chunks[1..]) == Concat(s.received) + (b + Concat(s.chunks[1..]));
      assert (s.received + [b])[..|s.received|] == s.received;
    }
  }

  lemma {:induction false} SendKeepsStream(s: Link)
    requires StreamMatches(s) && s.sender.backlog.Valid()
    ensures StreamMatches(Do(s, Send))
  {
    hide W.OnFrame, Concat;
    if s.frames != [] {
      SenderStepKeepsStream(s, W.FrameArrives(s.frames[0]), W.OnFrame(s.sender, s.frames[0]));
    }
  }

  lemma {:induction false} TickKeepsStream(s: Link, timerFired: bool)
    requires StreamMatches(s) && s.sender.backlog.Valid()
    ensures StreamMatches(Do(s, Tick(timerFired)))
  {
    hide W.OnTick, Concat;
    SenderStepKeepsStream(s, W.Tick(timerFired), W.OnTick(s.sender, timerFired));
  }

  lemma {:induction false} StepKeepsInv(s: Link, step: Step, readCapacity: nat)
    requires Inv(s, readCapacity)
    ensures Inv(Do(s, step), readCapacity)
  {
    hide ToBytes, W.OnFrame, W.OnTick, ReadChunk, ReadAll, WP.Conserves, Concat, EncodeAll, Taken, PacketsOf;
    ValidBacklog(s);
    match step
    case Submit(p) => QueueingKeepsInv(s, step);
    case Encode => QueueingKeepsInv(s, step);
    case Send =>
      SendKeepsQueues(s);
      SendKeepsSender(s);
      SendKeepsStream(s);
    case Tick(timerFired) =>
      TickKeepsStream(s, timerFired);
      TickKeepsSender(s, W.Tick(timerFired), W.OnTick(s.sender, timerFired));
    case Network =>
      TickKeepsSender(s, W.Network, W.OnNetwork(s.sender));
    case ConnEnds =>
      TickKeepsSender(s, W.ConnEnds, W.OnConnEnd(s.sender));
    case Deliver(n) => DeliverKeepsStream(s, n);
    case Receive => ReceiveKeepsInv(s, readCapacity);
  }

  lemma {:induction false} ValidBacklog(s: Link)
    requires SenderMatches(s)
    ensures s.sender.backlog.Valid()
  {
  }

  lemma {:induction false} DeliverKeepsStream(s: Link, n: nat)
    requires StreamMatches(s)
    ensures StreamMatches(Do(s, Deliver(n)))
  {
    hide Concat;
    var written := s.sender.stream.written;
    if n != 0 && s.delivered + n <= |written| {
      var b := written[s.delivered..s.delivered + n];
      WP.ConcatSnoc(s.chunks, b);
      assert written[..s.delivered + n] == written[..s.delivered] + b;
      assert Concat(s.received) + (Concat(s.chunks) + b) == Concat(s.received) + Concat(s.chunks) + b;
    }
  }

  lemma {:induction false} RunKeepsInv(sendCapacity: nat, readCapacity: nat, grants: seq<W.Grant>, steps: seq<Step>)
    ensures Inv(Run(NewLink(sendCapacity, readCapacity, grants), steps), readCapacity)
  {
    hide Do;
    if steps == [] {
      StartInv(sendCapacity, readCapacity, grants);
    } else {
      RunKeepsInv(sendCapacity, readCapacity, grants, steps[..|steps| - 1]);
      StepKeepsInv(Run(NewLink(sendCapacity, readCapacity, grants), steps[..|steps| - 1]), steps[|steps| - 1],
                   readCapacity);
    }
  }

  lemma {:induction false} StartInv(sendCapacity: nat, readCapacity: nat, grants: seq<W.Grant>)
    ensures Inv(NewLink(sendCapacity, readCapacity, grants), readCapacity)
  {
  }

  // ----- the theorems -----

  /** What the reader was fed is a prefix of the encoding of the packets the sender took on. */
  lemma {:induction false} ReceivedIsPrefix(s: Link, readCapacity: nat)
    requires Inv(s, readCapacity)
    ensures Concat(s.received) <= EncodeAll(Taken(s.fates))
  {
    hide EncodeAll, Taken, ReadAll;
    assert Concat(s.received) <= s.sender.stream.written[..s.delivered];
    assert s.sender.stream.written[..s.delivered] <= s.sender.stream.written <= Concat(s.sender.accepted);
  }

  /**
   * End to end, in every reachable state: the packets that came out are a prefix of the packets the sender took on,
   * and those are the submitted ones minus the refused ones, in order. Nothing parses as malformed.
   */
  lemma {:induction false} EndToEnd(sendCapacity: nat, readCapacity: nat, grants: seq<W.Grant>, steps: seq<Step>)
    ensures var s := Run(NewLink(sendCapacity, readCapacity, grants), steps);
      && s.reader.out <= Taken(s.fates) && s.reader.stop != Malformed
      && s.submitted == SubmittedBy(steps) == PacketsOf(s.fates) + s.framed + s.requests
  {
    hide Do, Run;
    SubmittedAre(NewLink(sendCapacity, readCapacity, grants), steps);
    RunKeepsInv(sendCapacity, readCapacity, grants, steps);
    var s := Run(NewLink(sendCapacity, readCapacity, grants), steps);
    ReceivedIsPrefix(s, readCapacity);
    MessagesAreWellFormed(Taken(s.fates));
    ReaderEmitsPrefix(readCapacity, s.received, Taken(s.fates));
  }

  ghost predicate Drained(s: Link) {
    && s.sender.backlog.bytes == [] && s.chunks == [] && s.delivered == |s.sender.stream.written|
    && s.sender.stop != W.StreamFailed && s.reader.stop == Running
  }

  lemma {:induction false} DrainedFeedsAll(s: Link, readCapacity: nat)
    requires Inv(s, readCapacity) && Drained(s)
    ensures Concat(s.received) == EncodeAll(Taken(s.fates))
  {
    hide EncodeAll, Taken, ReadAll, QueuesMatch;
    var written := s.sender.stream.written;
    assert written[..|written|] == written && written + [] == written;
    assert Concat(s.received) + [] == Concat(s.received);
  }

  lemma {:induction false} AllTaken(fates: seq<(Message, bool)>)
    requires forall i :: 0 <= i < |fates| ==> fates[i].1
    ensures Taken(fates) == PacketsOf(fates)
  {
    if fates != [] { AllTaken(fates[..|fates| - 1]); }
  }

  /**
   * Once backlog, stream and receive channel are drained without a failure, exactly the taken packets came out. If
   * moreover nothing waits to be sent and nothing was refused, exactly the submitted packets came out.
   */
  lemma {:induction false} DrainedDeliversAll(
      sendCapacity: nat, readCapacity: nat, grants: seq<W.Grant>, steps: seq<Step>)
    requires Drained(Run(NewLink(sendCapacity, readCapacity, grants), steps))
    ensures var s := Run(NewLink(sendCapacity, readCapacity, grants), steps);
      && s.reader.out == Taken(s.fates) && s.reader.buf.bytes == []
      && (s.framed == [] && s.requests == [] && (forall i :: 0 <= i < |s.fates| ==> s.fates[i].1) ==>
            s.reader.out == s.submitted)
  {
    hide Do, Run, Concat, EncodeAll, Taken, PacketsOf;
    RunKeepsInv(sendCapacity, readCapacity, grants, steps);
    var s := Run(NewLink(sendCapacity, readCapacity, grants), steps);
    DrainedFeedsAll(s, readCapacity);
    MessagesAreWellFormed(Taken(s.fates));
    ReaderEmitsPrefix(readCapacity, s.received, Taken(s.fates));
    if s.framed == [] && s.requests == [] && (forall i :: 0 <= i < |s.fates| ==> s.fates[i].1) {
      AllTaken(s.fates);
      assert PacketsOf(s.fates) + [] + [] == PacketsOf(s.fates);
    }
  }

  // ----- refinement of a FIFO queue -----

  datatype Fifo = Fifo(queue: seq<Packet>, out: seq<Packet>)

  /** The queue a link stands for: what was taken on and has not come out. */
  function Abstract(s: Link): Fifo
    requires |s.reader.out| <= |Taken(s.fates)|
  {
    Fifo(Taken(s.fates)[|s.reader.out|..], s.reader.out)
  }

  ghost predicate Enqueues(f: Fifo, g: Fifo, p: Packet) {
    g.queue == f.queue + [p] && g.out == f.out
  }

  ghost predicate Dequeues(f: Fifo, g: Fifo) {
    |g.queue| <= |f.queue| && var k := |f.queue| - |g.queue|;
    g.queue == f.queue[k..] && g.out == f.out + f.queue[..k]
  }

  /** Every step of the link enqueues the packet whose frame is sent, or moves packets from the head to the output. */
  lemma {:induction false} StepRefinesFifo(
      sendCapacity: nat, readCapacity: nat, grants: seq<W.Grant>, steps: seq<Step>, step: Step)
    ensures var s := Run(NewLink(sendCapacity, readCapacity, grants), steps);
      var t := Do(s, step);
      && |s.reader.out| <= |Taken(s.fates)| && |t.reader.out| <= |Taken(t.fates)|
      && ((step == Send && s.framed != [] && Enqueues(Abstract(s), Abstract(t), s.framed[0]))
          || Dequeues(Abstract(s), Abstract(t)))
  {
    hide Run, Do, Taken;
    EndToEnd(sendCapacity, readCapacity, grants, steps);
    EndToEnd(sendCapacity, readCapacity, grants, steps + [step]);
    var s := Run(NewLink(sendCapacity, readCapacity, grants), steps);
    RunSnoc(NewLink(sendCapacity, readCapacity, grants), steps, step);
    TakenAndOutGrow(s, step);
    var t := Do(s, step);
    if Taken(t.fates) != Taken(s.fates) {
      assert Abstract(t).queue == Abstract(s).queue + [s.framed[0]];
    } else {
      assert t.reader.out == s.reader.out + Taken(s.fates)[|s.reader.out|..][..|t.reader.out| - |s.reader.out|];
    }
  }

  lemma {:induction false} RunSnoc(s: Link, steps: seq<Step>, step: Step)
    ensures Run(s, steps + [step]) == Do(Run(s, steps), step)
  {
    assert (steps + [step])[..|steps|] == steps;
  }

  lemma {:induction false} TakenAndOutGrow(s: Link, step: Step)
    ensures var t := Do(s, step);
      if Taken(t.fates) == Taken(s.fates) then s.reader.out <= t.reader.out
      else step == Send && s.framed != [] && t.reader == s.reader && Taken(t.fates) == Taken(s.fates) + [s.framed[0]]
  {
    hide W.OnFrame, W.OnTick, ReadChunk, Taken, ToBytes;
    match step
    case Send =>
      if s.frames != [] && s.framed != [] && s.sender.stop == W.Running {
        var w := W.OnFrame(s.sender, s.frames[0]);
        FateSnoc(s.fates, s.framed[0], |w.accepted| > |s.sender.accepted|);
      }
    case Receive => if s.chunks != [] { OutGrows(s.reader, s.chunks[0]); }
    case _ =>
  }

  lemma {:induction false} OutGrows(r: Reader, b: seq<u8>)
    ensures r.out <= ReadChunk(r, b).out
  {
    hide GreedyParse, NeedSize;
  }
}
