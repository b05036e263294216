/**
 * The server's connection manager (link/src/server.rs): the per-connection main loops, the manager task with its
 * `clients` map, and the per-connection callback loops, interleaved in any order.
 */
module Server {

  /** `client_name@peer_addr`; an address prints without `@`, so the text determines both parts. */
  datatype Name = Name(client: string, addr: nat)

  datatype Signal = New(name: Name, conn: nat) | Exit(name: Name)

  // ----- the broadcast channel of one connection -----

  /** A bounded broadcast channel with one receiver: overflow loses the oldest packet and is reported as lag. */
  datatype Channel = Channel(
    capacity: nat,
    queue: seq<nat>,
    lagged: bool,
    listening: bool,
    handed: seq<nat>,        // packets passed to on_send
    reports: nat,            // lags counted
    // history
    pushed: seq<nat>,        // packets the manager put in
    everLagged: bool)

  function NewChannel(capacity: nat): Channel {
    Channel(capacity, [], false, true, [], 0, [], false)
  }

  function Push(ch: Channel, p: nat): Channel {
    if !ch.listening then ch else
    var ch1 := ch.(pushed := ch.pushed + [p]);
    if |ch.queue| < ch.capacity then ch1.(queue := ch.queue + [p])
    else ch1.(queue := (ch.queue + [p])[1..], lagged := true, everLagged := true)
  }

  function PushCopies(ch: Channel, p: nat, copies: nat): Channel {
    if copies == 0 then ch else Push(PushCopies(ch, p, copies - 1), p)
  }

  /** One turn of the callback loop: a lag is only counted, a packet goes to on_send. */
  function OnSendTurn(ch: Channel): Channel {
    if ch.lagged then ch.(lagged := false, reports := ch.reports + 1)
    else if ch.queue == [] then ch
    else ch.(queue := ch.queue[1..], handed := ch.handed + [ch.queue[0]])
  }

  // ----- connections -----

  datatype Phase =
    | Live         // in the main loop
    | Announcing   // on_auth returned true, the New signal is not sent yet
    | Closing      // out of the loop
    | Leaving      // past the on_disconnect decision
    | Closed       // the Exit signal is sent

  datatype Conn = Conn(
    addr: nat,
    phase: Phase,
    authed: bool,
    name: Name,
    disconnects: seq<string>,          // client names passed to on_disconnect
    chan: Channel,
    // history
    attempts: seq<(string, bool)>,     // client names of the auth requests, and what on_auth returned
    announced: set<Name>)              // names sent in New signals

  datatype State = State(
    capacity: nat,
    conns: seq<Conn>,
    signals: seq<Signal>,
    clients: map<Name, nat>,
    exits: seq<nat>,                   // connections the manager told to exit
    // history
    sent: seq<Signal>,                 // every signal ever sent
    kicked: set<Name>,                 // names closed through CloseClient, and no New signal for them since
    rosters: seq<map<Name, nat>>)      // for every packet broadcast, the map at that time

  function Start(capacity: nat): State {
    State(capacity, [], [], map[], [], [], {}, [])
  }

  datatype Step =
    | Accept(addr: nat)
    | Auth(c: nat, client: string, ok: bool)
    | Announce(c: nat)
    | Break(c: nat)
    | Disconnect(c: nat)
    | SendExit(c: nat)
    | Manage
    | CloseClient(name: Name)
    | Broadcast
    | OnSend(c: nat)
    | Hangup(c: nat)

  predicate InPhase(s: State, c: nat, phase: Phase) {
    c < |s.conns| && s.conns[c].phase == phase
  }

  function DoAuth(k: Conn, client: string, ok: bool): Conn {
    var k1 := k.(name := Name(client, k.addr), attempts := k.attempts + [(client, ok)]);
    if ok then k1.(authed := true, phase := Announcing) else k1
  }

  /** on_disconnect gets the auth info of the last auth request, whatever on_auth said to it. */
  function DoDisconnect(k: Conn): Conn {
    k.(phase := Leaving, disconnects := k.disconnects + (if k.authed then [k.name.client] else []))
  }

  /** What the manager does with one connection signal. */
  function Settle(clients: map<Name, nat>, sig: Signal): map<Name, nat> {
    match sig
    case New(name, c) => clients[name := c]
    case Exit(name) => clients - {name}
  }

  /** The map once all waiting signals are processed. */
  function SettleAll(clients: map<Name, nat>, signals: seq<Signal>): map<Name, nat> {
    if signals == [] then clients else
    Settle(SettleAll(clients, signals[..|signals| - 1]), signals[|signals| - 1])
  }

  /** A New signal for this name is still to be processed. */
  predicate NewWaits(signals: seq<Signal>, name: Name) {
    exists i :: 0 <= i < |signals| && signals[i].New? && signals[i].name == name
  }

  function NamesOf(clients: map<Name, nat>, c: nat): set<Name> {
    set n | n in clients && clients[n] == c
  }

  function BroadcastTo(conns: seq<Conn>, clients: map<Name, nat>, p: nat): (r: seq<Conn>)
    ensures |r| == |conns|
  {
    seq(|conns|, i requires 0 <= i < |conns| =>
      conns[i].(chan := PushCopies(conns[i].chan, p, |NamesOf(clients, i)|)))
  }

  function Do(s: State, step: Step): State {
    match step
    case Accept(addr) =>
      s.(conns := s.conns +
          [Conn(addr, Live, false, Name("waitAuth", addr), [], NewChannel(s.capacity), [], {})])
    case Auth(c, client, ok) =>
      if InPhase(s, c, Live) then s.(conns := s.conns[c := DoAuth(s.conns[c], client, ok)]) else s
    case Announce(c) =>
      if !InPhase(s, c, Announcing) then s else
      var k := s.conns[c];
      s.(conns := s.conns[c := k.(phase := Live, announced := k.announced + {k.name})],
         signals := s.signals + [New(k.name, c)], sent := s.sent + [New(k.name, c)], kicked := s.kicked - {k.name})
    case Break(c) =>
      if InPhase(s, c, Live) then s.(conns := s.conns[c := s.conns[c].(phase := Closing)]) else s
    case Disconnect(c) =>
      if InPhase(s, c, Closing) then s.(conns := s.conns[c := DoDisconnect(s.conns[c])]) else s
    case SendExit(c) =>
      if !InPhase(s, c, Leaving) then s else
      var bye := Exit(s.conns[c].name);
      s.(conns := s.conns[c := s.conns[c].(phase := Closed)], signals := s.signals + [bye], sent := s.sent + [bye])
    case Manage =>
      if s.signals == [] then s else
      s.(clients := Settle(s.clients, s.signals[0]), signals := s.signals[1..])
    case CloseClient(name) =>
      if name !in s.clients then s else
      s.(clients := s.clients - {name}, exits := s.exits + [s.clients[name]],
         kicked := if NewWaits(s.signals, name) then s.kicked else s.kicked + {name})
    case Broadcast =>
      s.(conns := BroadcastTo(s.conns, s.clients, |s.rosters|), rosters := s.rosters + [s.clients])
    case OnSend(c) =>
      if c < |s.conns| then s.(conns := s.conns[c := s.conns[c].(chan := OnSendTurn(s.conns[c].chan))]) else s
    case Hangup(c) =>
      if c < |s.conns|
      then s.(conns := s.conns[c := s.conns[c].(chan := s.conns[c].chan.(listening := false, queue := []))]) else s
  }

  function Run(s: State, steps: seq<Step>): State {
    if steps == [] then s else Do(Run(s, steps[..|steps| - 1]), steps[|steps| - 1])
  }

  /** A new connection takes this address only when every earlier one there has sent its Exit signal. */
  predicate NoOverlap(s: State, step: Step, addr: nat) {
    step == Accept(addr) ==> forall i :: 0 <= i < |s.conns| && s.conns[i].addr == addr ==> s.conns[i].phase == Closed
  }

  predicate NeverOverlaps(s: State, steps: seq<Step>, addr: nat) {
    steps == [] ||
    (NeverOverlaps(s, steps[..|steps| - 1], addr) && NoOverlap(Run(s, steps[..|steps| - 1]), steps[|steps| - 1], addr))
  }
}
