/** The server's tasks as they run (link/src/server.rs): the connection manager and one connection's main loop. */
module ServerTask {
  import opened Server
  import opened BroadcastProofs

  // ----- the connection manager -----

  /** What the manager's select loop meets. */
  datatype MgmtEvent = FromClient(sig: Signal) | CloseRequest(name: Name) | SendPacket

  predicate About(e: MgmtEvent, n: Name) {
    match e
    case FromClient(sig) => sig.name == n
    case CloseRequest(name) => name == n
    case SendPacket => false
  }

  /** The event number `i` is the last one about this name. */
  ghost predicate LastAbout(events: seq<MgmtEvent>, i: nat, n: Name) {
    i < |events| && About(events[i], n) && forall j :: i < j < |events| ==> !About(events[j], n)
  }

  ghost predicate LastNew(events: seq<MgmtEvent>, n: Name, c: nat) {
    exists i: nat :: LastAbout(events, i, n) && events[i] == FromClient(New(n, c))
  }

  /** The map holds exactly the names whose last event was a New signal, each for the connection of that signal. */
  ghost predicate LastWords(clients: map<Name, nat>, events: seq<MgmtEvent>) {
    forall n: Name, c: nat :: n in clients && clients[n] == c <==> LastNew(events, n, c)
  }

  /** The connections told to exit: for every close request, the one that has the name then, if any. */
  ghost function ExitsAsked(events: seq<MgmtEvent>): seq<nat> {
    if events == [] then [] else
    var e, before := events[|events| - 1], events[..|events| - 1];
    if e.CloseRequest? && exists c: nat :: LastNew(before, e.name, c)
    then var c: nat :| LastNew(before, e.name, c); ExitsAsked(before) + [c]
    else ExitsAsked(before)
  }

  function PacketCount(events: seq<MgmtEvent>): nat {
    if events == [] then 0 else
    PacketCount(events[..|events| - 1]) + (if events[|events| - 1].SendPacket? then 1 else 0)
  }

  /** Each channel got, on top of what it had, every packet as often as its connection was listed for it, in order. */
  ghost predicate Delivered(was: seq<Channel>, now: seq<Channel>, rosters: seq<map<Name, nat>>) {
    && |now| == |was|
    && forall c :: 0 <= c < |now| ==>
         && now[c].listening == was[c].listening
         && now[c].pushed == was[c].pushed + (if was[c].listening then Expected(rosters, c) else [])
  }

  /**
   * The manager task over the channels of all connections. Its map follows the last word on each name, every close
   * request makes the connection that has the name exit, and every packet goes to the connections that are in the map
   * at that moment, once per name, in order.
   */
  method ConnMgmtTask(receivers: seq<Channel>, events: seq<MgmtEvent>)
    returns (clients: map<Name, nat>, exits: seq<nat>, rosters: seq<map<Name, nat>>, channels: seq<Channel>)
    ensures LastWords(clients, events)
    ensures exits == ExitsAsked(events)
    ensures |rosters| == PacketCount(events)
    ensures forall i :: 0 <= i < |events| && events[i].SendPacket? ==>
      PacketCount(events[..i]) < |rosters| && LastWords(rosters[PacketCount(events[..i])], events[..i])
    ensures Delivered(receivers, channels, rosters)
  {
    hide PushCopies, LastWords, Delivered;
    clients, exits, rosters, channels := map[], [], [], receivers;
    NoWords();
    NothingExpected(receivers);
    var k := 0;
    while k < |events|
      invariant 0 <= k <= |events|
      invariant LastWords(clients, events[..k])
      invariant exits == ExitsAsked(events[..k])
      invariant |rosters| == PacketCount(events[..k])
      invariant forall i :: 0 <= i < k && events[i].SendPacket? ==>
        PacketCount(events[..i]) < |rosters| && LastWords(rosters[PacketCount(events[..i])], events[..i])
      invariant Delivered(receivers, channels, rosters)
    {
      ghost var before := clients;
      assert events[..k + 1][..k] == events[..k];
      match events[k] {
        case FromClient(New(name, conn)) => clients := clients[name := conn];
        case FromClient(Exit(name)) => clients := clients - {name};
        case CloseRequest(name) =>
          WhoHas(clients, events[..k], name);
          if name in clients {
            exits := exits + [clients[name]];
            clients := clients - {name};
          }
        case SendPacket =>
          ghost var was := channels;
          channels := PushToAll(clients, channels, |rosters|);
          PushedToAll(receivers, was, channels, rosters, clients);
          rosters := rosters + [clients];
      }
      NextWord(before, events[..k], events[k], clients);
      assert events[..k + 1] == events[..k] + [events[k]];
      k := k + 1;
    }
    assert events[..k] == events;
  }

  lemma {:induction false} WhoHas(clients: map<Name, nat>, events: seq<MgmtEvent>, n: Name)
    requires LastWords(clients, events)
    ensures n in clients <==> exists c: nat :: LastNew(events, n, c)
    ensures n in clients ==> forall c: nat :: LastNew(events, n, c) <==> c == clients[n]
  {
    hide LastNew;
    if n in clients { assert LastNew(events, n, clients[n]); }
  }

  lemma {:induction false} NoWords()
    ensures LastWords(map[], [])
  {
  }

  lemma {:induction false} NothingExpected(channels: seq<Channel>)
    ensures Delivered(channels, channels, [])
  {
  }

  lemma {:induction false} NextWord(
      clients: map<Name, nat>, events: seq<MgmtEvent>, e: MgmtEvent, clients': map<Name, nat>)
    requires LastWords(clients, events)
    requires match e
      case FromClient(New(name, c)) => clients' == clients[name := c]
      case FromClient(Exit(name)) => clients' == clients - {name}
      case CloseRequest(name) => clients' == clients - {name}
      case SendPacket => clients' == clients
    ensures LastWords(clients', events + [e])
  {
    var more, last := events + [e], |events|;
    assert more[last] == e && forall j :: 0 <= j < last ==> more[j] == events[j];
    forall n: Name, c: nat ensures n in clients' && clients'[n] == c <==> LastNew(more, n, c) {
      if About(e, n) {
        assert LastAbout(more, last, n);
        assert forall i: nat :: LastAbout(more, i, n) ==> i == last;
      } else {
        forall i: nat ensures LastAbout(events, i, n) <==> LastAbout(more, i, n) {
          if LastAbout(more, i, n) { assert i != last; }
        }
        assert LastNew(events, n, c) <==> LastNew(more, n, c);
      }
    }
  }

  lemma {:induction false} PushedToAll(receivers: seq<Channel>, was: seq<Channel>, now: seq<Channel>,
                                       rosters: seq<map<Name, nat>>, clients: map<Name, nat>)
    requires Delivered(receivers, was, rosters) && |now| == |was|
    requires forall c :: 0 <= c < |was| ==> now[c] == PushCopies(was[c], |rosters|, |NamesOf(clients, c)|)
    ensures Delivered(receivers, now, rosters + [clients])
  {
    hide PushCopies, NamesOf;
    var p := |rosters|;
    assert (rosters + [clients])[..p] == rosters;
    forall c | 0 <= c < |was|
      ensures now[c].listening == was[c].listening
      ensures now[c].pushed == was[c].pushed + (if was[c].listening then Repeat(p, |NamesOf(clients, c)|) else [])
    {
      CopiesPushed(was[c], p, |NamesOf(clients, c)|);
      assert was[c].pushed + [] == was[c].pushed;
    }
  }

  /** The broadcast arm: visits the entries of the map in any order. */
  method PushToAll(clients: map<Name, nat>, channels: seq<Channel>, p: nat) returns (pushed: seq<Channel>)
    ensures |pushed| == |channels|
    ensures forall c :: 0 <= c < |pushed| ==> pushed[c] == PushCopies(channels[c], p, |NamesOf(clients, c)|)
  {
    pushed := channels;
    var left := clients.Keys;
    ghost var visited: map<Name, nat> := map[];
    while left != {}
      invariant left <= clients.Keys
      invariant visited == clients - left
      invariant |pushed| == |channels|
      invariant forall c :: 0 <= c < |pushed| ==> pushed[c] == PushCopies(channels[c], p, |NamesOf(visited, c)|)
      decreases left
    {
      var name :| name in left;
      left := left - {name};
      var c := clients[name];
      VisitOne(visited, name, c);
      visited := visited[name := c];
      if c < |pushed| {
        pushed := pushed[c := Push(pushed[c], p)];
      }
    }
    assert visited == clients;
  }

  lemma {:induction false} VisitOne(visited: map<Name, nat>, name: Name, c: nat)
    requires name !in visited
    ensures |NamesOf(visited[name := c], c)| == |NamesOf(visited, c)| + 1
    ensures forall b: nat :: b != c ==> NamesOf(visited[name := c], b) == NamesOf(visited, b)
  {
    assert NamesOf(visited[name := c], c) == NamesOf(visited, c) + {name};
  }

  // ----- one connection's main loop -----

  /** What the main loop meets, with the time since the server started. */
  datatype Event =
    | HeartbeatTick(now: nat)
    | ExitRequested
    | Packet(now: nat)                                                // neither a heartbeat nor an auth request
    | HeartbeatPacket(now: nat, id: nat)
    | AuthPacket(now: nat, decodes: bool, client: string, ok: bool)   // `ok` is what on_auth answers
    | ReceiveClosed

  datatype LoopEnd = Running | AuthTimeout | HeartbeatTimeout | Exited | Undecodable | ReceiveGone

  /** `pongs` are the ids of the heartbeats answered. */
  datatype Loop = Loop(
    authed: bool, name: Name, lastPingAt: nat, signals: seq<Name>, pongs: seq<nat>, end: LoopEnd)

  function Enter(addr: nat, now: nat): Loop {
    Loop(false, Name("waitAuth", addr), now, [], [], Running)
  }

  /** One turn of the select loop; the timeouts are both measured from the last packet. */
  function Turn(l: Loop, e: Event, heartbeatTimeout: nat, authTimeout: nat): Loop {
    if l.end != Running then l else
    match e
    case HeartbeatTick(now) =>
      if l.authed then (if now > l.lastPingAt + heartbeatTimeout then l.(end := HeartbeatTimeout) else l)
      else (if now > l.lastPingAt + authTimeout then l.(end := AuthTimeout) else l)
    case ExitRequested => l.(end := Exited)
    case Packet(now) => l.(lastPingAt := now)
    case HeartbeatPacket(now, id) => l.(lastPingAt := now, pongs := l.pongs + [id])
    case AuthPacket(now, decodes, client, ok) =>
      var l1 := l.(lastPingAt := now);
      if !decodes then l1.(end := Undecodable) else
      var l2 := l1.(name := Name(client, l.name.addr));
      if ok then l2.(authed := true, signals := l2.signals + [l2.name]) else l2
    case ReceiveClosed => l.(end := ReceiveGone)
  }

  function Turns(l: Loop, events: seq<Event>, heartbeatTimeout: nat, authTimeout: nat): Loop {
    if events == [] then l
    else Turn(Turns(l, events[..|events| - 1], heartbeatTimeout, authTimeout), events[|events| - 1],
              heartbeatTimeout, authTimeout)
  }

  // ----- what the loop does, read off the trace -----

  predicate IsPacket(e: Event) {
    e.Packet? || e.HeartbeatPacket? || e.AuthPacket?
  }

  /** Packets arrive in the order of time, after the start. */
  ghost predicate ClockRuns(start: nat, events: seq<Event>) {
    && (forall i :: 0 <= i < |events| && IsPacket(events[i]) ==> start <= events[i].now)
    && (forall i, j :: 0 <= i < j < |events| && IsPacket(events[i]) && IsPacket(events[j]) ==>
          events[i].now <= events[j].now)
  }

  /** For longer than `timeout` before `now` nothing happened: neither the start nor any packet. */
  ghost predicate Silent(start: nat, events: seq<Event>, now: nat, timeout: nat) {
    && now > start + timeout
    && forall i :: 0 <= i < |events| && IsPacket(events[i]) ==> now > events[i].now + timeout
  }

  /** The names of the accepted auth requests, in order. */
  function AcceptedNames(addr: nat, events: seq<Event>): seq<Name> {
    if events == [] then [] else
    var e, before := events[|events| - 1], AcceptedNames(addr, events[..|events| - 1]);
    if e.AuthPacket? && e.decodes && e.ok then before + [Name(e.client, addr)] else before
  }

  /** The name of the last auth request that decodes, accepted or not. */
  function LastTried(addr: nat, events: seq<Event>): Name {
    if events == [] then Name("waitAuth", addr) else
    var e := events[|events| - 1];
    if e.AuthPacket? && e.decodes then Name(e.client, addr) else LastTried(addr, events[..|events| - 1])
  }

  /** The ids of the heartbeats, in order. */
  function Heartbeats(events: seq<Event>): seq<nat> {
    if events == [] then [] else
    var e, before := events[|events| - 1], Heartbeats(events[..|events| - 1]);
    if e.HeartbeatPacket? then before + [e.id] else before
  }

  /** The event number `i`, if the loop still runs, ends it. */
  ghost predicate Ends(start: nat, events: seq<Event>, i: nat, heartbeatTimeout: nat, authTimeout: nat)
    requires i < |events|
  {
    match events[i]
    case HeartbeatTick(now) =>
      Silent(start, events[..i], now, if AcceptedNames(0, events[..i]) != [] then heartbeatTimeout else authTimeout)
    case ExitRequested => true
    case Packet(_) => false
    case HeartbeatPacket(_, _) => false
    case AuthPacket(_, decodes, _, _) => !decodes
    case ReceiveClosed => true
  }

  ghost predicate FirstEnd(start: nat, events: seq<Event>, i: nat, heartbeatTimeout: nat, authTimeout: nat) {
    && i < |events| && Ends(start, events, i, heartbeatTimeout, authTimeout)
    && forall j :: 0 <= j < i ==> !Ends(start, events, j, heartbeatTimeout, authTimeout)
  }

  function WayOut(events: seq<Event>, i: nat): LoopEnd
    requires i < |events|
  {
    match events[i]
    case HeartbeatTick(_) => if AcceptedNames(0, events[..i]) != [] then HeartbeatTimeout else AuthTimeout
    case ExitRequested => Exited
    case Packet(_) => Running
    case HeartbeatPacket(_, _) => Running
    case AuthPacket(_, _, _, _) => Undecodable
    case ReceiveClosed => ReceiveGone
  }

  lemma {:induction false} AcceptedAnywhere(addr: nat, events: seq<Event>)
    ensures AcceptedNames(addr, events) != [] <==> AcceptedNames(0, events) != []
  {
    if events != [] { AcceptedAnywhere(addr, events[..|events| - 1]); }
  }

  /** While the loop runs, it knows its name, every accepted one, and the heartbeats it answered. */
  lemma {:induction false} RunningLoop(
      addr: nat, start: nat, events: seq<Event>, heartbeatTimeout: nat, authTimeout: nat)
    requires ClockRuns(start, events)
    requires Turns(Enter(addr, start), events, heartbeatTimeout, authTimeout).end == Running
    ensures var l := Turns(Enter(addr, start), events, heartbeatTimeout, authTimeout);
      && l.name == LastTried(addr, events) && l.name.addr == addr
      && l.signals == AcceptedNames(addr, events) && l.pongs == Heartbeats(events)
      && (l.authed <==> l.signals != [])
  {
    if events != [] {
      RunningLoop(addr, start, events[..|events| - 1], heartbeatTimeout, authTimeout);
    }
  }

  lemma {:induction false} LastPing(
      addr: nat, start: nat, events: seq<Event>, heartbeatTimeout: nat, authTimeout: nat)
    requires ClockRuns(start, events)
    requires Turns(Enter(addr, start), events, heartbeatTimeout, authTimeout).end == Running
    ensures var l := Turns(Enter(addr, start), events, heartbeatTimeout, authTimeout);
      && (forall i :: 0 <= i < |events| && IsPacket(events[i]) ==> events[i].now <= l.lastPingAt)
      && start <= l.lastPingAt
      && (l.lastPingAt == start ||
          exists i :: 0 <= i < |events| && IsPacket(events[i]) && events[i].now == l.lastPingAt)
  {
    if events != [] {
      var last, before := |events| - 1, events[..|events| - 1];
      LastPing(addr, start, before, heartbeatTimeout, authTimeout);
      assert forall i :: 0 <= i < last ==> before[i] == events[i];
      var was := Turns(Enter(addr, start), before, heartbeatTimeout, authTimeout);
      if !IsPacket(events[last]) && was.lastPingAt != start {
        var i :| 0 <= i < |before| && IsPacket(before[i]) && before[i].now == was.lastPingAt;
        assert IsPacket(events[i]) && events[i].now == was.lastPingAt;
      }
    }
  }

  /**
   * The timeouts, exactly: a tick ends a running loop if and only if neither the start nor any packet lies within the
   * timeout before it. So an unauthenticated connection that keeps sending is never closed.
   */
  lemma {:induction false} TimeoutIff(
      addr: nat, start: nat, events: seq<Event>, now: nat, heartbeatTimeout: nat, authTimeout: nat)
    requires ClockRuns(start, events)
    requires Turns(Enter(addr, start), events, heartbeatTimeout, authTimeout).end == Running
    ensures var l := Turns(Enter(addr, start), events, heartbeatTimeout, authTimeout);
      var t := Turn(l, HeartbeatTick(now), heartbeatTimeout, authTimeout);
      && (!l.authed ==> (t.end == AuthTimeout <==> Silent(start, events, now, authTimeout)))
      && (l.authed ==> (t.end == HeartbeatTimeout <==> Silent(start, events, now, heartbeatTimeout)))
      && t.end in {Running, if l.authed then HeartbeatTimeout else AuthTimeout}
  {
    hide Turns;
    LastPing(addr, start, events, heartbeatTimeout, authTimeout);
  }

  lemma {:induction false} LastTurn(
      addr: nat, start: nat, events: seq<Event>, heartbeatTimeout: nat, authTimeout: nat)
    requires events != [] && ClockRuns(start, events[..|events| - 1])
    requires Turns(Enter(addr, start), events[..|events| - 1], heartbeatTimeout, authTimeout).end == Running
    ensures var l, last := Turns(Enter(addr, start), events, heartbeatTimeout, authTimeout), |events| - 1;
      if Ends(start, events, last, heartbeatTimeout, authTimeout)
      then l.end == WayOut(events, last) != Running && l.name == LastTried(addr, events[..last])
           && l.signals == AcceptedNames(addr, events[..last]) && l.pongs == Heartbeats(events[..last])
           && (l.authed <==> l.signals != [])
      else l.end == Running
  {
    var before, e := events[..|events| - 1], events[|events| - 1];
    RunningLoop(addr, start, before, heartbeatTimeout, authTimeout);
    AcceptedAnywhere(addr, before);
    if e.HeartbeatTick? {
      TimeoutIff(addr, start, before, e.now, heartbeatTimeout, authTimeout);
    }
    hide Silent, AcceptedNames, LastTried, Heartbeats;
  }

  /** The whole loop: it runs on as long as no event ends it, and the first that does decides how. */
  lemma {:induction false} LoopEndsIff(
      addr: nat, start: nat, events: seq<Event>, heartbeatTimeout: nat, authTimeout: nat)
    requires ClockRuns(start, events)
    ensures var l := Turns(Enter(addr, start), events, heartbeatTimeout, authTimeout);
      && (l.end == Running <==>
            forall i :: 0 <= i < |events| ==> !Ends(start, events, i, heartbeatTimeout, authTimeout))
      && forall i: nat :: FirstEnd(start, events, i, heartbeatTimeout, authTimeout) ==>
           && l.end == WayOut(events, i) && l.name == LastTried(addr, events[..i])
           && l.signals == AcceptedNames(addr, events[..i]) && l.pongs == Heartbeats(events[..i])
           && (l.authed <==> l.signals != [])
  {
    if events != [] {
      var last, before := |events| - 1, events[..|events| - 1];
      LoopEndsIff(addr, start, before, heartbeatTimeout, authTimeout);
      forall i: nat | i < last
        ensures Ends(start, before, i, heartbeatTimeout, authTimeout)
          == Ends(start, events, i, heartbeatTimeout, authTimeout)
        ensures WayOut(before, i) == WayOut(events, i) && before[..i] == events[..i]
      {
        assert before[..i] == events[..i] && before[i] == events[i];
      }
      hide Ends, WayOut, AcceptedNames, LastTried, Heartbeats;
      if Turns(Enter(addr, start), before, heartbeatTimeout, authTimeout).end == Running {
        LastTurn(addr, start, events, heartbeatTimeout, authTimeout);
      } else {
        var k: nat :| k < last && Ends(start, before, k, heartbeatTimeout, authTimeout);
        assert Ends(start, events, k, heartbeatTimeout, authTimeout);
        forall i: nat | FirstEnd(start, events, i, heartbeatTimeout, authTimeout)
          ensures i < last && FirstEnd(start, before, i, heartbeatTimeout, authTimeout) {
          assert i <= k;
        }
      }
    }
  }

  /** The main loop of one connection, then its exit path. */
  method ClientMainLoop(addr: nat, start: nat, events: seq<Event>, heartbeatTimeout: nat, authTimeout: nat)
    returns (announced: seq<Name>, pongs: seq<nat>, disconnects: nat, exitName: Name, end: LoopEnd)
    ensures var l := Turns(Enter(addr, start), events, heartbeatTimeout, authTimeout);
      && announced == l.signals && pongs == l.pongs && exitName == l.name && end == l.end
      && disconnects == if l.end != Running && l.authed then 1 else 0
    ensures ClockRuns(start, events) ==>
      && (end == Running <==> forall i :: 0 <= i < |events| ==> !Ends(start, events, i, heartbeatTimeout, authTimeout))
      && forall i: nat :: FirstEnd(start, events, i, heartbeatTimeout, authTimeout) ==>
           && end == WayOut(events, i) && exitName == LastTried(addr, events[..i])
           && announced == AcceptedNames(addr, events[..i]) && pongs == Heartbeats(events[..i])
           && disconnects == if announced != [] then 1 else 0
    ensures ClockRuns(start, events) && end == Running ==>
      && exitName == LastTried(addr, events) && announced == AcceptedNames(addr, events)
      && pongs == Heartbeats(events) && disconnects == 0
  {
    var isAuthOk, clientName, lastPingAt := false, Name("waitAuth", addr), start;
    announced, pongs, disconnects, end := [], [], 0, Running;
    var k := 0;
    while k < |events| && end == Running
      invariant 0 <= k <= |events|
      invariant Turns(Enter(addr, start), events[..k], heartbeatTimeout, authTimeout)
        == Loop(isAuthOk, clientName, lastPingAt, announced, pongs, end)
      invariant clientName.addr == addr
      decreases |events| - k
    {
      assert events[..k + 1][..k] == events[..k];
      match events[k] {
        case HeartbeatTick(now) =>
          if isAuthOk {
            if now > lastPingAt + heartbeatTimeout { end := HeartbeatTimeout; }
          } else {
            if now > lastPingAt + authTimeout { end := AuthTimeout; }
          }
        case ExitRequested => end := Exited;
        case Packet(now) => lastPingAt := now;
        case HeartbeatPacket(now, id) => lastPingAt, pongs := now, pongs + [id];
        case AuthPacket(now, decodes, client, ok) =>
          lastPingAt := now;
          if !decodes {
            end := Undecodable;
          } else {
            clientName := Name(client, addr);
            if ok {
              isAuthOk, announced := true, announced + [clientName];
            }
          }
        case ReceiveClosed => end := ReceiveGone;
      }
      k := k + 1;
    }
    EndedTurnsNothing(Enter(addr, start), events, k, heartbeatTimeout, authTimeout);
    exitName := clientName;
    if end != Running && isAuthOk {
      disconnects := 1;
    }
    if ClockRuns(start, events) {
      LoopEndsIff(addr, start, events, heartbeatTimeout, authTimeout);
      if end == Running { RunningLoop(addr, start, events, heartbeatTimeout, authTimeout); }
    }
  }

  lemma {:induction false} EndedTurnsNothing(
      l: Loop, events: seq<Event>, k: nat, heartbeatTimeout: nat, authTimeout: nat)
    requires k <= |events|
    requires k == |events| || Turns(l, events[..k], heartbeatTimeout, authTimeout).end != Running
    ensures Turns(l, events, heartbeatTimeout, authTimeout) == Turns(l, events[..k], heartbeatTimeout, authTimeout)
  {
    if k == |events| {
      assert events[..k] == events;
    } else {
      var before := events[..|events| - 1];
      assert before[..k] == events[..k];
      EndedTurnsNothing(l, before, k, heartbeatTimeout, authTimeout);
    }
  }

  // ----- the unauthenticated timeout -----

  /** A packet every `authTimeout`, each followed by a tick just before the next one. */
  function Chatter(start: nat, authTimeout: nat, n: nat): (events: seq<Event>)
    ensures |events| == 2 * n
  {
    if n == 0 then [] else
    var now := start + (n - 1) * authTimeout;
    Chatter(start, authTimeout, n - 1) + [Packet(now), HeartbeatTick(now + authTimeout)]
  }

  /** Packets alone keep an unauthenticated connection open for any time, since the timeout restarts at each one. */
  lemma {:induction false} NeverAuthenticatedNeverClosed(
      addr: nat, start: nat, heartbeatTimeout: nat, authTimeout: nat, n: nat)
    ensures var l := Turns(Enter(addr, start), Chatter(start, authTimeout, n), heartbeatTimeout, authTimeout);
      l.end == Running && !l.authed && (n > 0 ==> l.lastPingAt == start + (n - 1) * authTimeout)
  {
    if n > 0 {
      var before := Chatter(start, authTimeout, n - 1);
      var now := start + (n - 1) * authTimeout;
      NeverAuthenticatedNeverClosed(addr, start, heartbeatTimeout, authTimeout, n - 1);
      assert Chatter(start, authTimeout, n) == before + [Packet(now), HeartbeatTick(now + authTimeout)];
      hide Chatter;
      TwoTurns(Enter(addr, start), before, Packet(now), HeartbeatTick(now + authTimeout),
               heartbeatTimeout, authTimeout);
    }
  }

  lemma {:induction false} TwoTurns(
      l: Loop, events: seq<Event>, e: Event, f: Event, heartbeatTimeout: nat, authTimeout: nat)
    ensures Turns(l, events + [e, f], heartbeatTimeout, authTimeout)
      == Turn(Turn(Turns(l, events, heartbeatTimeout, authTimeout), e, heartbeatTimeout, authTimeout), f,
              heartbeatTimeout, authTimeout)
  {
    hide Turn;
    var more := events + [e, f];
    assert more[..|more| - 1] == events + [e] && (events + [e])[..|events|] == events;
  }
}
