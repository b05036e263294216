/** The client's tasks as they run (link/src/client.rs): arms on shared fields, interleaved, and the retry loop. */
module ClientTask {
  import opened Bits
  import opened Packets
  import C = Client
  import ClientProofs
  import T = ClientTraffic

  class LinkClient {
    const subscribes: seq<Command>
    const room: nat
    var requestIdGen: u32
    var requests: map<u32, nat>           // the pending map
    var requestRx: seq<nat>
    var phase: C.Phase
    var registering: Option<nat>
    var subscribing: seq<Command>
    var innerResponseRx: seq<C.Reply>
    var packetProcessRx: seq<C.Reply>
    var gone: set<nat>                    // requests whose receiver is dropped
    var answered: seq<(nat, C.Reply)>
    var onResponse: seq<C.Reply>
    var onConnected: nat
    var tickets: seq<C.Ticket>
    var sent: seq<C.Out>                  // what went to the transport, and the peer may answer
    ghost var base: nat

    ghost function View(): C.State
      reads this
    {
      C.State(subscribes, room, requestIdGen, requestRx, phase, registering, subscribing, innerResponseRx,
              packetProcessRx, requests, gone, answered, onResponse, onConnected, tickets, sent, base)
    }

    constructor (subscribes: seq<Command>, room: nat)
      ensures View() == C.Start(subscribes, room)
    {
      this.subscribes, this.room := subscribes, room;
      requestIdGen, requests, requestRx, phase, registering, subscribing := 1, map[], [], C.Starting, None, [];
      innerResponseRx, packetProcessRx, gone, answered, onResponse, onConnected := [], [], {}, [], [], 0;
      tickets, sent, base := [], [], 0;
    }

    method NewTicket(cmd: Command, stage: C.Stage) returns (k: nat)
      modifies this`requestIdGen, this`tickets
      ensures View() == C.Allocate(old(View()), cmd, stage)
      ensures k == |old(tickets)|
    {
      k := |tickets|;
      var reqId := requestIdGen;
      requestIdGen := (requestIdGen + 1) % 0x1_0000_0000;
      tickets := tickets + [C.Ticket(cmd, RequestIdTrim(reqId), stage)];
    }

    /** send_request up to the packet; heartbeats and auth requests are refused. */
    method BuildRequest(cmd: Command) returns (ok: bool)
      modifies this`requestIdGen, this`tickets
      ensures ok <==> cmd !in {Heartbeat, Auth}
      ensures View() == C.Do(old(View()), C.Call(cmd))
    {
      if cmd == Heartbeat || cmd == Auth {
        return false;
      }
      var k := NewTicket(cmd, C.Held);
      return true;
    }

    /** send_request hands the packet to the link task. */
    method QueueRequest(k: nat)
      modifies this`tickets, this`requestRx
      ensures View() == C.DoEnqueue(old(View()), k)
    {
      if k < |tickets| && tickets[k].stage == C.Held {
        tickets := tickets[k := tickets[k].(stage := C.Queued)];
        requestRx := requestRx + [k];
      }
    }

    /** send_request gives up waiting for the response. */
    method StopWaiting(k: nat)
      modifies this`gone
      ensures View() == C.DoExpire(old(View()), k)
    {
      if k < |tickets| && tickets[k].stage in {C.Queued, C.Registering, C.Waiting} {
        gone := gone + {k};
      }
    }

    method PeerAnswers(k: nat, ok: bool)
      modifies this`innerResponseRx
      ensures View() == C.DoPeerReplies(old(View()), k, ok)
    {
      if C.WasSent(sent, k) && k < |tickets| {
        innerResponseRx := innerResponseRx + [C.Reply(k, tickets[k].cmd, tickets[k].id, ok)];
      }
    }

    method SendInternal(cmd: Command, kind: C.Kind)
      modifies this`requestIdGen, this`tickets, this`sent
      ensures View() == C.SendInternal(old(View()), cmd, kind)
    {
      var k := NewTicket(cmd, C.Internal);
      sent := sent + [C.Out(kind, cmd, k)];
    }

    /** The request arm, first half: hand the packet to the transport. */
    method ForwardNext(ok: bool)
      modifies this
      ensures View() == C.DoForward(old(View()), ok)
    {
      if phase != C.Up || registering.Some? || subscribing != [] || requestRx == [] || requestRx[0] >= |tickets| {
        return;
      }
      var k := requestRx[0];
      requestRx := requestRx[1..];
      if ok {
        tickets := tickets[k := tickets[k].(stage := C.Registering)];
        sent, registering := sent + [C.Out(C.UserRequest, tickets[k].cmd, k)], Some(k);
      } else {
        tickets := tickets[k := tickets[k].(stage := C.GivenUp)];
      }
    }

    /** The request arm, second half: save the response sender under the request's id. */
    method RegisterNext(timely: bool)
      modifies this
      ensures View() == C.DoRegister(old(View()), timely)
    {
      if registering.None? || registering.value >= |tickets| {
        return;
      }
      var k := registering.value;
      registering := None;
      if timely {
        requests := requests[tickets[k].id := k];
        tickets := tickets[k := tickets[k].(stage := C.Waiting)];
      } else {
        tickets := tickets[k := tickets[k].(stage := C.GivenUp)];
      }
    }

    /** The response arm: heartbeats stop here, a good auth triggers the subscriptions, the rest may be dropped. */
    method ReceiveNext(full: bool)
      modifies this
      ensures View() == C.DoReceive(old(View()), full)
    {
      if phase != C.Up || registering.Some? || subscribing != [] || innerResponseRx == [] {
        return;
      }
      var r := innerResponseRx[0];
      if r.cmd == Auth && r.ok && (full || |packetProcessRx| >= room) {
        return;
      }
      innerResponseRx := innerResponseRx[1..];
      if r.cmd == Heartbeat {
        return;
      }
      if r.cmd == Auth {
        if !r.ok {
          phase := C.Down;
          return;
        }
        packetProcessRx := packetProcessRx + [r];
        subscribing := subscribes;
      } else if !full && |packetProcessRx| < room {
        packetProcessRx := packetProcessRx + [r];
      }
    }

    /** One of the subscribe requests that follow an auth response, in order. */
    method SubscribeNext()
      modifies this
      ensures View() == C.DoSubscribe(old(View()))
    {
      if subscribing != [] {
        SendInternal(subscribing[0], C.Subscription);
        subscribing := subscribing[1..];
      }
    }

    /** The processing task: look the id up, answer its waiter, or call back. */
    method ProcessNext()
      modifies this
      ensures View() == C.DoProcess(old(View()))
    {
      if packetProcessRx == [] {
        return;
      }
      var r := packetProcessRx[0];
      packetProcessRx := packetProcessRx[1..];
      if r.id in requests && requests[r.id] < |tickets| {
        var w := requests[r.id];
        requests := requests - {r.id};
        if w !in gone {
          tickets := tickets[w := tickets[w].(stage := C.Answered)];
          answered := answered + [(w, r)];
        }
      } else if r.cmd == Auth && r.ok {
        onConnected := onConnected + 1;
      } else {
        onResponse := onResponse + [r];
      }
    }

    method TakeStep(step: C.Step)
      modifies this
      ensures View() == C.Do(old(View()), step)
    {
      hide C.DoEnqueue, C.DoExpire, C.DoForward, C.DoRegister, C.DoReceive, C.DoSubscribe, C.DoReconnect, C.DoProcess,
        C.DoPeerReplies;
      match step
      case Call(cmd) => var ok := BuildRequest(cmd);
      case Enqueue(k) => QueueRequest(k);
      case Abandon(k) =>
        if k < |tickets| && tickets[k].stage == C.Held {
          tickets := tickets[k := tickets[k].(stage := C.GivenUp)];
        }
      case Expire(k) => StopWaiting(k);
      case Connect =>
        if phase == C.Starting {
          SendInternal(Auth, C.AuthRequest);
          phase := C.Up;
        }
      case Beat =>
        if phase == C.Up && registering.None? && subscribing == [] {
          SendInternal(Heartbeat, C.Ping);
        }
      case Forward(ok) => ForwardNext(ok);
      case Register(timely) => RegisterNext(timely);
      case Receive(full) => ReceiveNext(full);
      case Subscribe => SubscribeNext();
      case Reconnect => ResetForReconnect();
      case Process => ProcessNext();
      case PeerReplies(k, ok) => PeerAnswers(k, ok);
    }

    /** What is reset between two connections, and what is not. */
    method ResetForReconnect()
      modifies this
      ensures View() == C.DoReconnect(old(View()))
    {
      if phase == C.Starting || registering.Some? || subscribing != [] {
        return;
      }
      requestIdGen, phase, innerResponseRx := 1, C.Starting, [];
      sent, base := [], |tickets|;
    }
  }

  /**
   * The tasks, the calls and the peer in any order. What is sent and called back is what the steps say, whatever they
   * are. Under the conditions on runs, every answer a waiter got carries its own request's id and answers that request,
   * and no waiter is answered twice.
   */
  method RunTasks(subscribes: seq<Command>, room: nat, steps: seq<C.Step>)
    returns (answered: seq<(nat, C.Reply)>, requests: seq<C.Ticket>, onConnected: nat, onResponse: seq<C.Reply>,
             sent: seq<C.Out>)
    ensures var l := T.LogOf(C.Start(subscribes, room), steps);
      && T.UserCommands(requests) == l.calls
      && answered == T.Answers(l.lookups) && onConnected == T.Connects(l.lookups) && onResponse == T.PassedOn(l.lookups)
      && |T.OfKind(sent, C.Ping)| == l.pings && T.Tickets(T.OfKind(sent, C.UserRequest)) == l.handed
      && T.Commands(T.OfKind(sent, C.Subscription)) <= T.Subscriptions(subscribes, l.arrived)
    ensures C.AllAllowed(C.Start(subscribes, room), steps) ==>
      forall i :: 0 <= i < |answered| ==>
        var (waiter, reply) := answered[i];
        waiter < |requests| && requests[waiter].stage == C.Answered
        && reply.ticket == waiter && reply.id == requests[waiter].id
    ensures C.AllAllowed(C.Start(subscribes, room), steps) ==>
      forall i, j :: 0 <= i < j < |answered| ==> answered[i].0 != answered[j].0
  {
    hide C.Do;
    var client := new LinkClient(subscribes, room);
    var i := 0;
    while i < |steps|
      invariant 0 <= i <= |steps| && fresh(client)
      invariant client.View() == C.Run(C.Start(subscribes, room), steps[..i])
    {
      assert steps[..i + 1][..i] == steps[..i];
      client.TakeStep(steps[i]);
      i := i + 1;
    }
    assert steps[..i] == steps;
    answered, requests, sent := client.answered, client.tickets, client.sent;
    onConnected, onResponse := client.onConnected, client.onResponse;
    T.TrafficIsRight(subscribes, room, steps);
    ConfigStays(subscribes, room, steps);
    if C.AllAllowed(C.Start(subscribes, room), steps) {
      ClientProofs.MatchingIsRight(subscribes, room, steps);
    }
  }

  lemma {:induction false} ConfigStays(subscribes: seq<Command>, room: nat, steps: seq<C.Step>)
    ensures C.Run(C.Start(subscribes, room), steps).subscribes == subscribes
  {
    hide C.Do;
    if steps != [] {
      ConfigStays(subscribes, room, steps[..|steps| - 1]);
      ConfigStep(C.Run(C.Start(subscribes, room), steps[..|steps| - 1]), steps[|steps| - 1]);
    }
  }

  lemma {:induction false} ConfigStep(c: C.State, step: C.Step)
    ensures C.Do(c, step).subscribes == c.subscribes
  {
  }

  // ----- the retry loop -----

  /** How one pass of the outer loop ends. */
  datatype PassEnd =
    | Lost         // the data loop broke with an error
    | Completed    // ctrl-c or the connect task returned Ok
    | ExitSignal   // the user asked to exit
    | NoCid        // no random connection id

  datatype ConnEvent = Error | DisconnectedForever

  datatype Outcome = StillRunning | ReturnedOk | Exhausted | Failed

  function Errors(n: nat): (s: seq<ConnEvent>)
    ensures |s| == n && forall i :: 0 <= i < n ==> s[i] == Error
  {
    seq(n, _ => Error)
  }

  /** The first `n` passes all lost their connection. */
  ghost predicate AllLost(ends: seq<PassEnd>, n: nat) {
    n <= |ends| && forall i :: 0 <= i < n ==> ends[i] == Lost
  }

  /** The outer loop of link, over the ends of its passes. */
  method RetryLoop(maxRetryTimes: u32, ends: seq<PassEnd>)
    returns (events: seq<ConnEvent>, attempts: nat, outcome: Outcome)
    ensures maxRetryTimes > 0 ==> attempts <= maxRetryTimes
    ensures outcome == Exhausted <==> maxRetryTimes > 0 && AllLost(ends, maxRetryTimes)
    ensures outcome == Exhausted ==>
      attempts == maxRetryTimes && events == Errors(maxRetryTimes - 1) + [DisconnectedForever]
    ensures outcome == StillRunning ==> attempts == |ends| && AllLost(ends, attempts) && events == Errors(attempts)
    ensures outcome in {ReturnedOk, Failed} ==>
      exists n :: 0 <= n < |ends| && AllLost(ends, n) && (attempts == if ends[n] == NoCid then n else n + 1)
        && events == (if ends[n] == Completed then Errors(n) else Errors(n) + [DisconnectedForever])
        && (outcome == Failed <==> ends[n] == NoCid) && ends[n] != Lost
  {
    events, attempts, outcome := [], 0, StillRunning;
    var retryTimes: u32 := 0;
    var k := 0;
    while k < |ends|
      invariant 0 <= k <= |ends| && attempts == k && AllLost(ends, k) && events == Errors(k)
      invariant outcome == StillRunning
      invariant maxRetryTimes > 0 ==> retryTimes == k < maxRetryTimes
    {
      if ends[k] == NoCid {
        return events + [DisconnectedForever], attempts, Failed;
      }
      attempts := attempts + 1;
      match ends[k] {
        case Completed => return events, attempts, ReturnedOk;
        case ExitSignal => return events + [DisconnectedForever], attempts, ReturnedOk;
        case Lost =>
        case NoCid =>
      }
      retryTimes := (retryTimes + 1) % 0x1_0000_0000;
      if maxRetryTimes > 0 && retryTimes >= maxRetryTimes {
        return events + [DisconnectedForever], attempts, Exhausted;
      }
      events := events + [Error];
      k := k + 1;
    }
  }
}
