/** What the client sends, hands on and calls back, over every run, read off the steps taken. */
module ClientTraffic {
  import opened Bits
  import opened Packets
  import opened Client

  // ----- the steps, noted down -----

  /** Whom a response was looked up for: nobody, a caller that is gone, or one that waits. */
  datatype Found = Nobody | Gone | Waits(caller: nat)

  datatype Log = Log(
    calls: seq<Command>,               // commands of the calls that were not refused
    enqueued: seq<nat>,                // requests put into the request channel
    popped: seq<nat>,                  // requests taken out of it
    expired: set<nat>,                 // calls that stopped waiting for the response
    givenUp: set<nat>,                 // calls that failed before: not queued, not sent, or not registered
    kept: seq<Reply>,                  // responses that belong into the processing channel
    lookups: seq<(Reply, Found)>,      // responses processed, and whom they were for
    // this connection epoch
    handed: seq<nat>,                  // user requests handed to the transport
    pings: nat,
    replied: seq<Reply>,               // responses from the peer
    arrived: seq<Reply>)               // those taken off the receive channel

  const EMPTY_LOG: Log := Log([], [], [], {}, {}, [], [], [], 0, [], [])

  predicate GoodAuth(r: Reply) { r.cmd == Auth && r.ok }

  predicate RejectedAuth(r: Reply) { r.cmd == Auth && !r.ok }

  predicate Running(c: State) { c.phase == Up && Idle(c) }

  /** There is room for a response in the processing channel. */
  predicate HasRoom(c: State, full: bool) { !full && |c.process| < c.room }

  /** A response is taken off the receive channel; a good auth response waits for room. */
  predicate Receives(c: State, full: bool) {
    Running(c) && c.inbox != [] && (GoodAuth(c.inbox[0]) ==> HasRoom(c, full))
  }

  /** Heartbeats and rejected auths stop in the data loop; of the rest, what finds no room is lost. */
  predicate Keeps(c: State, r: Reply, full: bool) {
    r.cmd != Heartbeat && !RejectedAuth(r) && HasRoom(c, full)
  }

  function Lookup(c: State, id: u32): Found {
    if id !in c.pending then Nobody else if c.pending[id] in c.gone then Gone else Waits(c.pending[id])
  }

  /** Notes one step, from the state before it. */
  function Note(l: Log, c: State, step: Step): Log {
    match step
    case Call(cmd) => if cmd in {Heartbeat, Auth} then l else l.(calls := l.calls + [cmd])
    case Enqueue(k) => if HasStage(c, k, Held) then l.(enqueued := l.enqueued + [k]) else l
    case Abandon(k) => if HasStage(c, k, Held) then l.(givenUp := l.givenUp + {k}) else l
    case Expire(k) =>
      if HasStage(c, k, Queued) || HasStage(c, k, Registering) || HasStage(c, k, Waiting)
      then l.(expired := l.expired + {k}) else l
    case Connect => l
    case Beat => if Running(c) then l.(pings := l.pings + 1) else l
    case Forward(ok) =>
      if !Running(c) || c.queue == [] then l else
      var k := c.queue[0];
      l.(popped := l.popped + [k], handed := if ok then l.handed + [k] else l.handed,
         givenUp := if ok then l.givenUp else l.givenUp + {k})
    case Register(timely) =>
      if c.registering.Some? && !timely then l.(givenUp := l.givenUp + {c.registering.value}) else l
    case Receive(full) =>
      if !Receives(c, full) then l else
      var r := c.inbox[0];
      l.(arrived := l.arrived + [r], kept := if Keeps(c, r, full) then l.kept + [r] else l.kept)
    case Subscribe => l
    case Reconnect => if CanReconnect(c) then l.(handed := [], pings := 0, replied := [], arrived := []) else l
    case Process =>
      if c.process == [] then l else
      l.(lookups := l.lookups + [(c.process[0], Lookup(c, c.process[0].id))])
    case PeerReplies(k, ok) =>
      if !WasSent(c.sent, k) || k >= |c.tickets| then l else
      l.(replied := l.replied + [Reply(k, c.tickets[k].cmd, c.tickets[k].id, ok)])
  }

  function LogOf(c: State, steps: seq<Step>): Log {
    if steps == [] then EMPTY_LOG else
    var before := steps[..|steps| - 1];
    Note(LogOf(c, before), Run(c, before), steps[|steps| - 1])
  }

  // ----- what the log says must have happened -----

  function Replies(lookups: seq<(Reply, Found)>): seq<Reply> {
    if lookups == [] then [] else Replies(lookups[..|lookups| - 1]) + [lookups[|lookups| - 1].0]
  }

  /** on_connected: once for every good auth response that was for nobody. */
  function Connects(lookups: seq<(Reply, Found)>): nat {
    if lookups == [] then 0 else
    var (r, found) := lookups[|lookups| - 1];
    Connects(lookups[..|lookups| - 1]) + (if found == Nobody && GoodAuth(r) then 1 else 0)
  }

  /** on_response: every other response that was for nobody, in order. */
  function PassedOn(lookups: seq<(Reply, Found)>): seq<Reply> {
    if lookups == [] then [] else
    var (r, found) := lookups[|lookups| - 1];
    PassedOn(lookups[..|lookups| - 1]) + (if found == Nobody && !GoodAuth(r) then [r] else [])
  }

  /** The callers: every response for one that waits, in order. */
  function Answers(lookups: seq<(Reply, Found)>): seq<(nat, Reply)> {
    if lookups == [] then [] else
    var (r, found) := lookups[|lookups| - 1];
    Answers(lookups[..|lookups| - 1]) + (if found.Waits? then [(found.caller, r)] else [])
  }

  /** The requests of one kind among those sent, in order. */
  function OfKind(sent: seq<Out>, kind: Kind): seq<Out> {
    if sent == [] then [] else
    OfKind(sent[..|sent| - 1], kind) + (if sent[|sent| - 1].kind == kind then [sent[|sent| - 1]] else [])
  }

  function Tickets(sent: seq<Out>): seq<nat> {
    if sent == [] then [] else Tickets(sent[..|sent| - 1]) + [sent[|sent| - 1].ticket]
  }

  function Commands(sent: seq<Out>): seq<Command> {
    if sent == [] then [] else Commands(sent[..|sent| - 1]) + [sent[|sent| - 1].cmd]
  }

  /** The configured subscriptions, once for every good auth response. */
  function Subscriptions(subscribes: seq<Command>, arrived: seq<Reply>): seq<Command> {
    if arrived == [] then [] else
    Subscriptions(subscribes, arrived[..|arrived| - 1]) + (if GoodAuth(arrived[|arrived| - 1]) then subscribes else [])
  }

  function UserCommands(tickets: seq<Ticket>): seq<Command> {
    if tickets == [] then [] else
    var t := tickets[|tickets| - 1];
    UserCommands(tickets[..|tickets| - 1]) + (if t.stage == Internal then [] else [t.cmd])
  }

  // ----- and did -----

  predicate IsAt(tickets: seq<Ticket>, k: nat, stage: Stage) {
    k < |tickets| && tickets[k].stage == stage
  }

  ghost predicate AnyRejected(arrived: seq<Reply>) {
    exists i :: 0 <= i < |arrived| && RejectedAuth(arrived[i])
  }

  /** Queued, registering, waiting and sent requests are where their stage says. */
  ghost predicate Placed(
      queue: seq<nat>, registering: Option<nat>, pending: map<u32, nat>, sent: seq<Out>, tickets: seq<Ticket>)
  {
    && (forall i :: 0 <= i < |queue| ==> IsAt(tickets, queue[i], Queued))
    && (forall i, j :: 0 <= i < j < |queue| ==> queue[i] != queue[j])
    && (registering.Some? ==> IsAt(tickets, registering.value, Registering))
    && (forall id :: id in pending ==> IsAt(tickets, pending[id], Waiting) && tickets[pending[id]].id == id)
    && (forall i :: 0 <= i < |sent| ==> sent[i].ticket < |tickets| && sent[i].cmd == tickets[sent[i].ticket].cmd)
  }

  ghost predicate AllPlaced(c: State) {
    Placed(c.queue, c.registering, c.pending, c.sent, c.tickets)
  }

  /** What was asked, and which calls failed early. */
  ghost predicate TicketsRight(tickets: seq<Ticket>, calls: seq<Command>, givenUp: set<nat>) {
    && UserCommands(tickets) == calls
    && forall k: nat :: k in givenUp <==> IsAt(tickets, k, GivenUp)
  }

  /** Calls: what was asked, what is queued, and who gave up or stopped waiting. */
  ghost predicate CallsRight(c: State, l: Log) {
    && TicketsRight(c.tickets, l.calls, l.givenUp)
    && l.enqueued == l.popped + c.queue
    && c.gone == l.expired
  }

  /**
   * What this epoch sent: one auth request, first; one heartbeat for every tick; the configured subscriptions, in
   * order, after every good auth response, apart from those still to come; and the user requests as they were queued.
   */
  ghost predicate Sends(phase: Phase, sent: seq<Out>, subscribing: seq<Command>, subscribes: seq<Command>,
                        arrived: seq<Reply>, pings: nat, handed: seq<nat>)
  {
    && (phase == Starting <==> sent == []) && (phase == Starting ==> subscribing == [])
    && (sent != [] ==> sent[0].kind == AuthRequest && sent[0].cmd == Auth)
    && (forall i :: 0 < i < |sent| ==> sent[i].kind != AuthRequest)
    && (forall i :: 0 <= i < |sent| && sent[i].kind == Ping ==> sent[i].cmd == Heartbeat)
    && |OfKind(sent, Ping)| == pings
    && Commands(OfKind(sent, Subscription)) + subscribing == Subscriptions(subscribes, arrived)
    && Tickets(OfKind(sent, UserRequest)) == handed
  }

  ghost predicate SendsRight(c: State, l: Log) {
    Sends(c.phase, c.sent, c.subscribing, c.subscribes, l.arrived, l.pings, l.handed)
  }

  /**
   * Responses are taken up in the order the peer sent them. A rejected auth, and nothing else, ends the epoch. What
   * belongs into the processing channel is processed in order, and each response goes where its lookup says.
   */
  ghost predicate RepliesRight(c: State, l: Log) {
    && l.replied == l.arrived + c.inbox
    && (c.phase == Down <==> AnyRejected(l.arrived))
    && l.kept == Replies(l.lookups) + c.process
    && c.connected == Connects(l.lookups)
    && c.passed == PassedOn(l.lookups)
    && c.answered == Answers(l.lookups)
  }

  ghost predicate TrafficRight(c: State, l: Log) {
    AllPlaced(c) && CallsRight(c, l) && SendsRight(c, l) && RepliesRight(c, l)
  }

  // ----- tickets -----

  lemma {:induction false} AppendPlaced(c: State, t: Ticket, sent: seq<Out>)
    requires AllPlaced(c) && (sent == [] || exists kind :: sent == [Out(kind, t.cmd, |c.tickets|)])
    ensures Placed(c.queue, c.registering, c.pending, c.sent + sent, c.tickets + [t])
  {
  }

  /** A ticket nothing refers to by its stage may move on. */
  lemma {:induction false} MovePlaced(c: State, k: nat, stage: Stage)
    requires AllPlaced(c) && k < |c.tickets| && c.tickets[k].stage !in {Queued, Registering, Waiting}
    ensures AllPlaced(SetStage(c, k, stage))
    ensures stage == Queued ==> AllPlaced(SetStage(c, k, stage).(queue := c.queue + [k]))
  {
  }

  lemma {:induction false} ForwardPlaced(c: State, ok: bool)
    requires AllPlaced(c)
    ensures AllPlaced(DoForward(c, ok))
  {
  }

  lemma {:induction false} RegisterPlaced(c: State, timely: bool)
    requires AllPlaced(c)
    ensures AllPlaced(DoRegister(c, timely))
  {
  }

  lemma {:induction false} ProcessPlaced(c: State)
    requires AllPlaced(c)
    ensures AllPlaced(DoProcess(c))
  {
  }

  lemma {:induction false} PlacedKeeps(c: State, step: Step)
    requires AllPlaced(c)
    ensures AllPlaced(Do(c, step))
  {
    hide RequestIdTrim, Placed, DoForward, DoRegister, DoProcess;
    match step
    case Call(cmd) =>
      assert c.sent + [] == c.sent;
      AppendPlaced(c, Ticket(cmd, RequestIdTrim(c.gen), Held), []);
    case Enqueue(k) => if HasStage(c, k, Held) { MovePlaced(c, k, Queued); }
    case Abandon(k) => if HasStage(c, k, Held) { MovePlaced(c, k, GivenUp); }
    case Connect =>
      AppendPlaced(c, Ticket(Auth, RequestIdTrim(c.gen), Internal), [Out(AuthRequest, Auth, |c.tickets|)]);
    case Beat =>
      AppendPlaced(c, Ticket(Heartbeat, RequestIdTrim(c.gen), Internal), [Out(Ping, Heartbeat, |c.tickets|)]);
    case Subscribe =>
      if c.subscribing != [] {
        var cmd := c.subscribing[0];
        AppendPlaced(c, Ticket(cmd, RequestIdTrim(c.gen), Internal), [Out(Subscription, cmd, |c.tickets|)]);
      }
    case Forward(ok) => ForwardPlaced(c, ok);
    case Register(timely) => RegisterPlaced(c, timely);
    case Process => ProcessPlaced(c);
    case Reconnect => NothingSentPlaced(c);
    case _ =>
  }

  lemma {:induction false} NothingSentPlaced(c: State)
    requires AllPlaced(c)
    ensures Placed(c.queue, c.registering, c.pending, [], c.tickets)
  {
  }

  lemma {:induction false} UserSnoc(tickets: seq<Ticket>, t: Ticket)
    ensures UserCommands(tickets + [t]) == UserCommands(tickets) + (if t.stage == Internal then [] else [t.cmd])
  {
    assert (tickets + [t])[..|tickets|] == tickets;
  }

  lemma {:induction false} StageKeepsUsers(tickets: seq<Ticket>, k: nat, stage: Stage)
    requires k < |tickets| && tickets[k].stage != Internal && stage != Internal
    ensures UserCommands(tickets[k := tickets[k].(stage := stage)]) == UserCommands(tickets)
  {
    var last := |tickets| - 1;
    var t := tickets[k := tickets[k].(stage := stage)];
    if k < last {
      StageKeepsUsers(tickets[..last], k, stage);
      assert t[..last] == tickets[..last][k := tickets[k].(stage := stage)];
    } else {
      assert t[..last] == tickets[..last];
    }
  }

  lemma {:induction false} AppendTicket(tickets: seq<Ticket>, calls: seq<Command>, givenUp: set<nat>, t: Ticket)
    requires TicketsRight(tickets, calls, givenUp) && t.stage in {Held, Internal}
    ensures TicketsRight(tickets + [t], if t.stage == Held then calls + [t.cmd] else calls, givenUp)
  {
    UserSnoc(tickets, t);
    assert calls + [] == calls;
  }

  lemma {:induction false} MoveTicket(
      tickets: seq<Ticket>, calls: seq<Command>, givenUp: set<nat>, k: nat, stage: Stage)
    requires TicketsRight(tickets, calls, givenUp) && k < |tickets|
    requires tickets[k].stage !in {Internal, GivenUp} && stage != Internal
    ensures TicketsRight(tickets[k := tickets[k].(stage := stage)], calls,
                         if stage == GivenUp then givenUp + {k} else givenUp)
  {
    StageKeepsUsers(tickets, k, stage);
  }

  lemma {:induction false} ForwardKeepsCalls(c: State, l: Log, ok: bool)
    requires AllPlaced(c) && CallsRight(c, l)
    ensures CallsRight(DoForward(c, ok), Note(l, c, Forward(ok)))
  {
    hide TicketsRight;
    if c.queue != [] {
      MoveTicket(c.tickets, l.calls, l.givenUp, c.queue[0], if ok then Registering else GivenUp);
      assert l.popped + c.queue == (l.popped + [c.queue[0]]) + c.queue[1..];
    }
  }

  lemma {:induction false} RegisterKeepsCalls(c: State, l: Log, timely: bool)
    requires AllPlaced(c) && CallsRight(c, l)
    ensures CallsRight(DoRegister(c, timely), Note(l, c, Register(timely)))
  {
    hide TicketsRight;
    if c.registering.Some? {
      MoveTicket(c.tickets, l.calls, l.givenUp, c.registering.value, if timely then Waiting else GivenUp);
    }
  }

  lemma {:induction false} ProcessKeepsCalls(c: State, l: Log)
    requires AllPlaced(c) && CallsRight(c, l)
    ensures CallsRight(DoProcess(c), Note(l, c, Process))
  {
    hide TicketsRight;
    if c.process != [] && c.process[0].id in c.pending {
      MoveTicket(c.tickets, l.calls, l.givenUp, c.pending[c.process[0].id], Answered);
    }
  }

  lemma {:induction false} CallsKeep(c: State, l: Log, step: Step)
    requires AllPlaced(c) && CallsRight(c, l)
    ensures CallsRight(Do(c, step), Note(l, c, step))
  {
    hide RequestIdTrim, TicketsRight, Placed, DoForward, DoRegister, DoProcess, DoReceive;
    match step
    case Call(cmd) => AppendTicket(c.tickets, l.calls, l.givenUp, Ticket(cmd, RequestIdTrim(c.gen), Held));
    case Enqueue(k) =>
      if HasStage(c, k, Held) {
        MoveTicket(c.tickets, l.calls, l.givenUp, k, Queued);
        assert l.enqueued + [k] == l.popped + (c.queue + [k]);
      }
    case Abandon(k) => if HasStage(c, k, Held) { MoveTicket(c.tickets, l.calls, l.givenUp, k, GivenUp); }
    case Connect => AppendTicket(c.tickets, l.calls, l.givenUp, Ticket(Auth, RequestIdTrim(c.gen), Internal));
    case Beat => AppendTicket(c.tickets, l.calls, l.givenUp, Ticket(Heartbeat, RequestIdTrim(c.gen), Internal));
    case Subscribe =>
      if c.subscribing != [] {
        AppendTicket(c.tickets, l.calls, l.givenUp, Ticket(c.subscribing[0], RequestIdTrim(c.gen), Internal));
      }
    case Forward(ok) => ForwardKeepsCalls(c, l, ok);
    case Register(timely) => RegisterKeepsCalls(c, l, timely);
    case Process => ProcessKeepsCalls(c, l);
    case Receive(full) => ReceiveLeavesCalls(c, full);
    case _ =>
  }

  lemma {:induction false} ReceiveLeavesCalls(c: State, full: bool)
    ensures var d := DoReceive(c, full);
      d == c.(phase := d.phase, inbox := d.inbox, process := d.process, subscribing := d.subscribing)
  {
  }

  // ----- requests -----

  lemma {:induction false} OfKindSnoc(sent: seq<Out>, o: Out, kind: Kind)
    ensures OfKind(sent + [o], kind) == OfKind(sent, kind) + (if o.kind == kind then [o] else [])
  {
    assert (sent + [o])[..|sent|] == sent;
  }

  lemma {:induction false} OutSnoc(sent: seq<Out>, o: Out)
    ensures Tickets(sent + [o]) == Tickets(sent) + [o.ticket] && Commands(sent + [o]) == Commands(sent) + [o.cmd]
  {
    assert (sent + [o])[..|sent|] == sent;
  }

  /** One more request handed to the transport. */
  lemma {:induction false} SentSnoc(sent: seq<Out>, o: Out)
    ensures forall kind ::
      OfKind(sent + [o], kind) == if o.kind == kind then OfKind(sent, kind) + [o] else OfKind(sent, kind)
    ensures Commands(OfKind(sent + [o], o.kind)) == Commands(OfKind(sent, o.kind)) + [o.cmd]
    ensures Tickets(OfKind(sent + [o], o.kind)) == Tickets(OfKind(sent, o.kind)) + [o.ticket]
  {
    forall kind
      ensures OfKind(sent + [o], kind) == if o.kind == kind then OfKind(sent, kind) + [o] else OfKind(sent, kind)
    {
      OfKindSnoc(sent, o, kind);
      assert OfKind(sent, kind) + [] == OfKind(sent, kind);
    }
    OutSnoc(OfKind(sent, o.kind), o);
  }

  lemma {:induction false} SubscriptionsSnoc(subscribes: seq<Command>, arrived: seq<Reply>, r: Reply)
    ensures Subscriptions(subscribes, arrived + [r])
      == Subscriptions(subscribes, arrived) + (if GoodAuth(r) then subscribes else [])
  {
    assert (arrived + [r])[..|arrived|] == arrived;
  }

  /** One more request goes out: the auth request at the start, others later, subscriptions as they come. */
  lemma {:induction false} SendsOne(phase: Phase, sent: seq<Out>, subscribing: seq<Command>, subscribes: seq<Command>,
                                    arrived: seq<Reply>, pings: nat, handed: seq<nat>, o: Out)
    requires Sends(phase, sent, subscribing, subscribes, arrived, pings, handed)
    requires o.kind == AuthRequest <==> phase == Starting
    requires o.kind == AuthRequest ==> o.cmd == Auth
    requires o.kind == Ping ==> o.cmd == Heartbeat
    requires o.kind == Subscription ==> subscribing != [] && o.cmd == subscribing[0]
    ensures Sends(if phase == Starting then Up else phase, sent + [o],
                  if o.kind == Subscription then subscribing[1..] else subscribing, subscribes, arrived,
                  if o.kind == Ping then pings + 1 else pings,
                  if o.kind == UserRequest then handed + [o.ticket] else handed)
  {
    hide OfKind, Commands, Tickets, Subscriptions;
    SentSnoc(sent, o);
    if o.kind == Subscription {
      var cmds := Commands(OfKind(sent, Subscription));
      assert cmds + subscribing == (cmds + [o.cmd]) + subscribing[1..];
    }
  }

  lemma {:induction false} SendsAfter(phase: Phase, sent: seq<Out>, subscribes: seq<Command>,
                                      arrived: seq<Reply>, pings: nat, handed: seq<nat>, r: Reply)
    requires Sends(phase, sent, [], subscribes, arrived, pings, handed) && phase != Starting
    ensures Sends(if RejectedAuth(r) then Down else phase, sent, if GoodAuth(r) then subscribes else [], subscribes,
                  arrived + [r], pings, handed)
  {
    hide OfKind, Commands, Tickets, Subscriptions;
    SubscriptionsSnoc(subscribes, arrived, r);
    var cmds := Commands(OfKind(sent, Subscription));
    assert cmds + [] == cmds && Subscriptions(subscribes, arrived) + [] == Subscriptions(subscribes, arrived);
  }

  lemma {:induction false} SendsKeep(c: State, l: Log, step: Step)
    requires AllPlaced(c) && SendsRight(c, l)
    ensures SendsRight(Do(c, step), Note(l, c, step))
  {
    hide RequestIdTrim, Sends, Placed, DoRegister, DoProcess;
    match step
    case Connect => if c.phase == Starting { SendsNext(c, l, Out(AuthRequest, Auth, |c.tickets|)); }
    case Beat => if Running(c) { SendsNext(c, l, Out(Ping, Heartbeat, |c.tickets|)); }
    case Subscribe => SubscribeSends(c, l);
    case Forward(ok) => ForwardSends(c, l, ok);
    case Receive(full) =>
      if Receives(c, full) { SendsAfter(c.phase, c.sent, c.subscribes, l.arrived, l.pings, l.handed, c.inbox[0]); }
    case Register(timely) => RegisterLeavesTraffic(c, timely);
    case Process => ProcessLeavesTraffic(c);
    case Reconnect => NothingSent(c.subscribes);
    case _ =>
  }

  lemma {:induction false} SendsNext(c: State, l: Log, o: Out)
    requires SendsRight(c, l)
    requires o.kind == AuthRequest <==> c.phase == Starting
    requires o.kind == AuthRequest ==> o.cmd == Auth
    requires o.kind == Ping ==> o.cmd == Heartbeat
    requires o.kind == Subscription ==> c.subscribing != [] && o.cmd == c.subscribing[0]
    ensures Sends(if c.phase == Starting then Up else c.phase, c.sent + [o],
                  if o.kind == Subscription then c.subscribing[1..] else c.subscribing, c.subscribes, l.arrived,
                  if o.kind == Ping then l.pings + 1 else l.pings,
                  if o.kind == UserRequest then l.handed + [o.ticket] else l.handed)
  {
    hide Sends;
    SendsOne(c.phase, c.sent, c.subscribing, c.subscribes, l.arrived, l.pings, l.handed, o);
  }

  lemma {:induction false} SubscribeSends(c: State, l: Log)
    requires SendsRight(c, l)
    ensures SendsRight(DoSubscribe(c), l)
  {
    hide RequestIdTrim;
    if c.subscribing != [] {
      assert c.phase != Starting;
      hide Sends;
      SendsNext(c, l, Out(Subscription, c.subscribing[0], |c.tickets|));
    }
  }

  lemma {:induction false} ForwardSends(c: State, l: Log, ok: bool)
    requires AllPlaced(c) && SendsRight(c, l)
    ensures SendsRight(DoForward(c, ok), Note(l, c, Forward(ok)))
  {
    hide Sends;
    if Running(c) && c.queue != [] {
      var k := c.queue[0];
      SendsNext(c, l, Out(UserRequest, c.tickets[k].cmd, k));
    }
  }

  lemma {:induction false} RegisterLeavesTraffic(c: State, timely: bool)
    ensures var d := DoRegister(c, timely);
      d == c.(registering := d.registering, tickets := d.tickets, pending := d.pending)
  {
  }

  lemma {:induction false} ProcessLeavesTraffic(c: State)
    ensures var d := DoProcess(c);
      d == c.(process := d.process, tickets := d.tickets, pending := d.pending, answered := d.answered,
              connected := d.connected, passed := d.passed)
  {
  }

  lemma {:induction false} NothingSent(subscribes: seq<Command>)
    ensures forall kind :: OfKind([], kind) == []
    ensures Commands([]) == [] && Tickets([]) == [] && Subscriptions(subscribes, []) == []
    ensures Sends(Starting, [], [], subscribes, [], 0, [])
  {
  }

  // ----- responses -----

  lemma {:induction false} LookupSnoc(lookups: seq<(Reply, Found)>, r: Reply, found: Found)
    ensures var more := lookups + [(r, found)];
      && Replies(more) == Replies(lookups) + [r]
      && Connects(more) == Connects(lookups) + (if found == Nobody && GoodAuth(r) then 1 else 0)
      && PassedOn(more) == PassedOn(lookups) + (if found == Nobody && !GoodAuth(r) then [r] else [])
      && Answers(more) == Answers(lookups) + (if found.Waits? then [(found.caller, r)] else [])
  {
    assert (lookups + [(r, found)])[..|lookups|] == lookups;
  }

  lemma {:induction false} RejectedSnoc(arrived: seq<Reply>, r: Reply)
    ensures AnyRejected(arrived + [r]) <==> AnyRejected(arrived) || RejectedAuth(r)
  {
    var more := arrived + [r];
    assert more[|arrived|] == r && forall i :: 0 <= i < |arrived| ==> more[i] == arrived[i];
  }

  lemma {:induction false} ReceiveKeepsReplies(c: State, l: Log, full: bool)
    requires RepliesRight(c, l)
    ensures RepliesRight(DoReceive(c, full), Note(l, c, Receive(full)))
  {
    hide Replies, Connects, PassedOn, Answers, AnyRejected;
    if Receives(c, full) {
      var r := c.inbox[0];
      assert l.arrived + c.inbox == (l.arrived + [r]) + c.inbox[1..];
      RejectedSnoc(l.arrived, r);
      assert l.kept + [r] == Replies(l.lookups) + (c.process + [r]);
    }
  }

  lemma {:induction false} ProcessKeepsReplies(c: State, l: Log)
    requires AllPlaced(c) && RepliesRight(c, l)
    ensures RepliesRight(DoProcess(c), Note(l, c, Process))
  {
    hide Replies, Connects, PassedOn, Answers;
    if c.process != [] {
      var r := c.process[0];
      assert c.process == [r] + c.process[1..];
      LookupSnoc(l.lookups, r, Lookup(c, r.id));
      assert PassedOn(l.lookups) + [] == PassedOn(l.lookups) && Answers(l.lookups) + [] == Answers(l.lookups);
    }
  }

  lemma {:induction false} RepliesKeep(c: State, l: Log, step: Step)
    requires AllPlaced(c) && RepliesRight(c, l)
    ensures RepliesRight(Do(c, step), Note(l, c, step))
  {
    hide RequestIdTrim, Replies, Connects, PassedOn, Answers, Placed, DoReceive, DoProcess;
    match step
    case Receive(full) => ReceiveKeepsReplies(c, l, full);
    case Process => ProcessKeepsReplies(c, l);
    case _ =>
  }

  // ----- every run -----

  lemma {:induction false} StartRight(subscribes: seq<Command>, room: nat)
    ensures TrafficRight(Start(subscribes, room), EMPTY_LOG)
  {
  }

  /**
   * Over every run, without any condition: calls, what is sent, what is taken up, and every callback are what the
   * steps taken say they must be.
   */
  lemma {:induction false} TrafficIsRight(subscribes: seq<Command>, room: nat, steps: seq<Step>)
    ensures TrafficRight(Run(Start(subscribes, room), steps), LogOf(Start(subscribes, room), steps))
  {
    hide Do, Note, AllPlaced, CallsRight, SendsRight, RepliesRight;
    if steps == [] {
      StartRight(subscribes, room);
    } else {
      var before := steps[..|steps| - 1];
      var c, l := Run(Start(subscribes, room), before), LogOf(Start(subscribes, room), before);
      var step := steps[|steps| - 1];
      TrafficIsRight(subscribes, room, before);
      PlacedKeeps(c, step);
      CallsKeep(c, l, step);
      SendsKeep(c, l, step);
      RepliesKeep(c, l, step);
    }
  }

  /** So on_response never gets a heartbeat or an auth response that on_connected should have had, or a rejected one. */
  lemma {:induction false} CallbacksAreRight(subscribes: seq<Command>, room: nat, steps: seq<Step>)
    ensures var c := Run(Start(subscribes, room), steps);
      forall i :: 0 <= i < |c.passed| ==> c.passed[i].cmd !in {Heartbeat, Auth}
  {
    hide Run;
    TrafficIsRight(subscribes, room, steps);
    KeptAreNoHeartbeats(Start(subscribes, room), steps);
    var l := LogOf(Start(subscribes, room), steps);
    PassedOnFrom(l.lookups, Run(Start(subscribes, room), steps).process, l.kept);
  }

  lemma {:induction false} KeptAreNoHeartbeats(c: State, steps: seq<Step>)
    ensures forall i :: 0 <= i < |LogOf(c, steps).kept| ==>
      var r := LogOf(c, steps).kept[i]; r.cmd != Heartbeat && !RejectedAuth(r)
  {
    hide Run;
    if steps != [] {
      KeptAreNoHeartbeats(c, steps[..|steps| - 1]);
    }
  }

  lemma {:induction false} PassedOnFrom(lookups: seq<(Reply, Found)>, more: seq<Reply>, kept: seq<Reply>)
    requires kept == Replies(lookups) + more
    requires forall i :: 0 <= i < |kept| ==> kept[i].cmd != Heartbeat && !RejectedAuth(kept[i])
    ensures forall i :: 0 <= i < |PassedOn(lookups)| ==> PassedOn(lookups)[i].cmd !in {Heartbeat, Auth}
  {
    if lookups != [] {
      var last := |lookups| - 1;
      PassedOnFrom(lookups[..last], [lookups[last].0] + more, kept);
      assert kept[|Replies(lookups[..last])|] == lookups[last].0;
    }
  }
}
