/**
 * The client's request matching (link/src/client.rs): user calls, the data loop, the processing task and the peer,
 * interleaved. Each select arm is one step, except that forwarding and registering a request are two, and that an auth
 * response is followed by one step for each subscription.
 */
module Client {
  import opened Bits
  import opened Packets
  import opened RequestIds

  /** Where the response sender of an allocated request id is. */
  datatype Stage =
    | Internal     // auth, heartbeat, subscribe: nobody waits
    | Held         // allocated by a user call that has not queued it yet
    | Queued       // in request_rx
    | Registering  // forwarded to the transport, not yet in the pending map
    | Waiting      // registered in the pending map
    | Answered     // its waiter got a response
    | GivenUp      // the call or the lock timed out, or the transport was gone

  /** A connection epoch: the connect task starts once, the data loop runs, and breaks. */
  datatype Phase = Starting | Up | Down

  datatype Ticket = Ticket(cmd: Command, id: u32, stage: Stage)

  /** A request handed to the transport, and which part of the client it comes from. */
  datatype Kind = AuthRequest | Ping | Subscription | UserRequest
  datatype Out = Out(kind: Kind, cmd: Command, ticket: nat)

  /** A response in flight; `ticket` is the request it answers. The peer echoes that request's id and command. */
  datatype Reply = Reply(ticket: nat, cmd: Command, id: u32, ok: bool)

  datatype State = State(
    subscribes: seq<Command>,        // conf.subscribes
    room: nat,                       // capacity of the processing channel
    gen: u32,                        // request_id_gen
    queue: seq<nat>,                 // request_rx
    phase: Phase,
    registering: Option<nat>,        // the request between lines 312 and 318
    subscribing: seq<Command>,       // the subscribe requests still to be sent after an auth response
    inbox: seq<Reply>,               // inner_response_rx
    process: seq<Reply>,             // packet_process_rx
    pending: map<u32, nat>,          // requests
    gone: set<nat>,                  // requests whose caller stopped waiting; nothing else forgets them
    answered: seq<(nat, Reply)>,     // what the waiters got
    passed: seq<Reply>,              // on_response calls
    connected: nat,                  // on_connected calls
    // history
    tickets: seq<Ticket>,            // every id ever allocated
    sent: seq<Out>,                  // requests handed to the transport in this connection epoch, in order
    base: nat)                       // first allocation of this epoch

  function Start(subscribes: seq<Command>, room: nat): State {
    State(subscribes, room, 1, [], Starting, None, [], [], [], map[], {}, [], [], 0, [], [], 0)
  }

  datatype Step =
    | Call(cmd: Command) | Enqueue(k: nat) | Abandon(k: nat) | Expire(k: nat)   // send_request
    | Connect | Beat | Forward(ok: bool) | Register(timely: bool)               // link task
    | Receive(full: bool) | Subscribe | Reconnect
    | Process                                                       // processing task
    | PeerReplies(k: nat, ok: bool)

  /** fetch_add(1) and the packet built from the old value. */
  function Allocate(c: State, cmd: Command, stage: Stage): State {
    c.(gen := (c.gen + 1) % 0x1_0000_0000, tickets := c.tickets + [Ticket(cmd, RequestIdTrim(c.gen), stage)])
  }

  /** An internal request is allocated and handed to the transport at once. */
  function SendInternal(c: State, cmd: Command, kind: Kind): State {
    Allocate(c, cmd, Internal).(sent := c.sent + [Out(kind, cmd, |c.tickets|)])
  }

  /** The data loop is between two of its arms. */
  predicate Idle(c: State) {
    c.registering == None && c.subscribing == []
  }

  function SetStage(c: State, k: nat, stage: Stage): State
    requires k < |c.tickets|
  {
    c.(tickets := c.tickets[k := c.tickets[k].(stage := stage)])
  }

  predicate HasStage(c: State, k: nat, stage: Stage) {
    k < |c.tickets| && c.tickets[k].stage == stage
  }

  function DoEnqueue(c: State, k: nat): State {
    if !HasStage(c, k, Held) then c else SetStage(c, k, Queued).(queue := c.queue + [k])
  }

  /** The response timeout: the receiver is dropped, the sender stays where it is. */
  function DoExpire(c: State, k: nat): State {
    if k < |c.tickets| && c.tickets[k].stage in {Queued, Registering, Waiting} then c.(gone := c.gone + {k}) else c
  }

  function DoForward(c: State, ok: bool): State {
    if c.phase != Up || !Idle(c) || c.queue == [] || c.queue[0] >= |c.tickets| then c else
    var k, c1 := c.queue[0], c.(queue := c.queue[1..]);
    if ok then SetStage(c1, k, Registering).(
      sent := c.sent + [Out(UserRequest, c.tickets[k].cmd, k)], registering := Some(k))
    else SetStage(c1, k, GivenUp)
  }

  function DoRegister(c: State, timely: bool): State {
    match c.registering
    case None => c
    case Some(k) =>
      if k >= |c.tickets| then c else
      var c1 := c.(registering := None);
      if timely then SetStage(c1, k, Waiting).(pending := c.pending[c.tickets[k].id := k])
      else SetStage(c1, k, GivenUp)
  }

  /** `full` is whether pushes and requests, which share the processing channel, fill the rest of it. */
  function DoReceive(c: State, full: bool): State {
    if c.phase != Up || !Idle(c) || c.inbox == [] then c else
    var r, c1 := c.inbox[0], c.(inbox := c.inbox[1..]);
    if r.cmd == Heartbeat then c1 else
    if r.cmd == Auth then
      if !r.ok then c1.(phase := Down) else
      if full || |c.process| >= c.room then c else
      c1.(process := c.process + [r], subscribing := c.subscribes)
    else if !full && |c.process| < c.room then c1.(process := c.process + [r])
    else c1
  }

  /** After an auth response: the next subscribe request. */
  function DoSubscribe(c: State): State {
    if c.subscribing == [] then c else
    SendInternal(c, c.subscribing[0], Subscription).(subscribing := c.subscribing[1..])
  }

  /** The entry under the response's id goes; what it held is answered if its caller still waits. */
  function DoProcess(c: State): State {
    if c.process == [] then c else
    var r, c1 := c.process[0], c.(process := c.process[1..]);
    if r.id in c.pending && c.pending[r.id] < |c.tickets| then
      var w, c2 := c.pending[r.id], c1.(pending := c.pending - {r.id});
      if w in c.gone then c2 else SetStage(c2, w, Answered).(answered := c.answered + [(w, r)])
    else if r.cmd == Auth && r.ok then c1.(connected := c.connected + 1)
    else c1.(passed := c.passed + [r])
  }

  predicate CanReconnect(c: State) {
    c.phase != Starting && Idle(c)
  }

  /** The data loop breaks; the transport and its channels go away, the counter restarts, the rest stays. */
  function DoReconnect(c: State): State {
    if !CanReconnect(c) then c else
    c.(gen := 1, phase := Starting, inbox := [], sent := [], base := |c.tickets|)
  }

  predicate WasSent(sent: seq<Out>, k: nat) {
    exists i :: 0 <= i < |sent| && sent[i].ticket == k
  }

  function DoPeerReplies(c: State, k: nat, ok: bool): State {
    if !WasSent(c.sent, k) || k >= |c.tickets| then c else
    c.(inbox := c.inbox + [Reply(k, c.tickets[k].cmd, c.tickets[k].id, ok)])
  }

  function Do(c: State, step: Step): State {
    match step
    case Call(cmd) => if cmd in {Heartbeat, Auth} then c else Allocate(c, cmd, Held)
    case Enqueue(k) => DoEnqueue(c, k)
    case Abandon(k) => if HasStage(c, k, Held) then SetStage(c, k, GivenUp) else c
    case Expire(k) => DoExpire(c, k)
    case Connect => if c.phase != Starting then c else SendInternal(c, Auth, AuthRequest).(phase := Up)
    case Beat => if c.phase != Up || !Idle(c) then c else SendInternal(c, Heartbeat, Ping)
    case Forward(ok) => DoForward(c, ok)
    case Register(timely) => DoRegister(c, timely)
    case Receive(full) => DoReceive(c, full)
    case Subscribe => DoSubscribe(c)
    case Reconnect => DoReconnect(c)
    case Process => DoProcess(c)
    case PeerReplies(k, ok) => DoPeerReplies(c, k, ok)
  }

  function Run(c: State, steps: seq<Step>): State {
    if steps == [] then c else Do(Run(c, steps[..|steps| - 1]), steps[|steps| - 1])
  }

  /**
   * A state in which a reconnect leaves nothing behind that the next epoch could confuse: every caller in the pending
   * map is gone, and nothing is queued, held by a call or waiting to be processed.
   */
  predicate Quiet(c: State) {
    && (forall id :: id in c.pending ==> c.pending[id] in c.gone)
    && c.queue == [] && c.process == []
    && forall k :: 0 <= k < |c.tickets| ==> c.tickets[k].stage != Held
  }

  /** The condition on one step: reconnects happen in quiet states, and an epoch issues at most 2^24 ids. */
  predicate Allowed(c: State, step: Step) {
    && (step.Reconnect? && CanReconnect(c) ==> Quiet(c))
    && |Do(c, step).tickets| <= Do(c, step).base + MAX_24
  }

  predicate AllAllowed(c: State, steps: seq<Step>) {
    steps == [] ||
    (AllAllowed(c, steps[..|steps| - 1]) && Allowed(Run(c, steps[..|steps| - 1]), steps[|steps| - 1]))
  }
}
