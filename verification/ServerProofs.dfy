/** What every run of the server keeps: who is in the client map, who is told about a disconnect, who gets what. */
module ServerProofs {
  import opened Server

  // ----- one connection -----

  /** Some auth request under this client name was accepted by on_auth. */
  ghost predicate Accepted(k: Conn, client: string) {
    exists i :: 0 <= i < |k.attempts| && k.attempts[i] == (client, true)
  }

  ghost predicate AnyAccepted(k: Conn) {
    exists i :: 0 <= i < |k.attempts| && k.attempts[i].1
  }

  ghost predicate ConnOk(k: Conn) {
    && k.name.addr == k.addr
    && (k.attempts != [] ==> k.name.client == k.attempts[|k.attempts| - 1].0)
    && (k.authed <==> AnyAccepted(k))
    && (k.phase == Announcing ==> Accepted(k, k.name.client))
    && (forall n :: n in k.announced ==> n.addr == k.addr && Accepted(k, n.client))
    && (forall x :: Accepted(k, x) ==> Name(x, k.addr) in k.announced || (k.phase == Announcing && x == k.name.client))
    && k.disconnects == (if k.phase in {Leaving, Closed} && k.authed then [k.name.client] else [])
  }

  lemma {:induction false} AuthKeepsConn(k: Conn, client: string, ok: bool)
    requires ConnOk(k) && k.phase == Live
    ensures ConnOk(DoAuth(k, client, ok))
  {
    var d := DoAuth(k, client, ok);
    assert d.attempts[|k.attempts|] == (client, ok);
    assert forall i :: 0 <= i < |k.attempts| ==> d.attempts[i] == k.attempts[i];
    forall n | n in k.announced ensures Accepted(d, n.client) {
      var i :| 0 <= i < |k.attempts| && k.attempts[i] == (n.client, true);
      assert d.attempts[i] == (n.client, true);
    }
    if k.authed {
      var i :| 0 <= i < |k.attempts| && k.attempts[i].1;
      assert d.attempts[i].1;
    }
    if ok { assert d.attempts[|k.attempts|].1; }
    forall x | Accepted(d, x) && !(ok && x == client) ensures Accepted(k, x) {
      var i :| 0 <= i < |d.attempts| && d.attempts[i] == (x, true);
      assert k.attempts[i] == (x, true);
    }
  }

  lemma {:induction false} AnnounceKeepsConn(k: Conn)
    requires ConnOk(k) && k.phase == Announcing
    ensures ConnOk(k.(phase := Live, announced := k.announced + {k.name}))
  {
    var l := k.(phase := Live, announced := k.announced + {k.name});
    assert forall x :: Accepted(l, x) <==> Accepted(k, x);
  }

  lemma {:induction false} CloseKeepsConn(k: Conn)
    requires ConnOk(k) && k.phase == Leaving
    ensures ConnOk(k.(phase := Closed))
  {
    assert forall x :: Accepted(k.(phase := Closed), x) <==> Accepted(k, x);
  }

  lemma {:induction false} ChannelKeepsConn(k: Conn, chan: Channel)
    requires ConnOk(k)
    ensures ConnOk(k.(chan := chan))
  {
    assert forall x :: Accepted(k.(chan := chan), x) <==> Accepted(k, x);
  }

  /** The printed form `client@addr` names one client name and one address, since addresses contain no `@`. */
  lemma {:induction false} NameTextUnique(client: string, addr: string, client': string, addr': string)
    requires '@' !in addr && '@' !in addr'
    requires client + "@" + addr == client' + "@" + addr'
    ensures client == client' && addr == addr'
  {
    var s, t := client + "@" + addr, client' + "@" + addr';
    assert s[|client|] == '@' && t[|client'|] == '@';
    assert forall i :: |client| < i < |s| ==> s[i] in addr;
    assert forall i :: |client'| < i < |t| ==> t[i] in addr';
    assert |client| == |client'|;
    assert s[..|client|] == client && t[..|client'|] == client';
    assert s[|client| + 1..] == addr && t[|client'| + 1..] == addr';
  }

  // ----- the waiting signals, settled -----

  lemma {:induction false} SettleSnoc(clients: map<Name, nat>, signals: seq<Signal>, sig: Signal)
    ensures SettleAll(clients, signals + [sig]) == Settle(SettleAll(clients, signals), sig)
  {
    assert (signals + [sig])[..|signals|] == signals;
  }

  lemma {:induction false} SettleFirst(clients: map<Name, nat>, signals: seq<Signal>)
    requires signals != []
    ensures SettleAll(Settle(clients, signals[0]), signals[1..]) == SettleAll(clients, signals)
  {
    var last, sig := |signals| - 1, signals[|signals| - 1];
    if last == 0 {
      assert signals[1..] == [] && signals[..0] == [];
    } else {
      SettleFirst(clients, signals[..last]);
      assert signals[..last][1..] == signals[1..][..last - 1];
    }
  }

  /** A waiting New signal for a name makes an earlier removal of it void; otherwise the removal lasts. */
  lemma {:induction false} SettleRemovedIf(clients: map<Name, nat>, name: Name, signals: seq<Signal>)
    ensures var a, b := SettleAll(clients - {name}, signals), SettleAll(clients, signals);
      a == if NewWaits(signals, name) then b else b - {name}
  {
    if signals != [] {
      var last, before := |signals| - 1, signals[..|signals| - 1];
      SettleRemovedIf(clients, name, before);
      assert forall i :: 0 <= i < last ==> before[i] == signals[i];
      assert NewWaits(signals, name) <==> NewWaits(before, name) || (signals[last].New? && signals[last].name == name);
    }
  }

  // ----- the invariant -----

  /** An entry, or a signal that will make one, stands for a connection that announced that name. */
  ghost predicate Announced(s: State, n: Name, c: nat) {
    c < |s.conns| && n in s.conns[c].announced
  }

  ghost predicate Members(s: State) {
    && (forall c :: 0 <= c < |s.conns| ==> ConnOk(s.conns[c]))
    && (forall n :: n in s.clients ==> Announced(s, n, s.clients[n]))
    && (forall i :: 0 <= i < |s.signals| && s.signals[i].New? ==> Announced(s, s.signals[i].name, s.signals[i].conn))
  }

  /** A connection that is closed under this very name. */
  ghost predicate Gone(s: State, n: Name, c: nat) {
    c < |s.conns| && s.conns[c].phase == Closed && s.conns[c].name == n
  }

  /** Once the signals are processed, no connection is listed under the name it closed with. */
  ghost predicate NoGhosts(s: State) {
    var d := SettleAll(s.clients, s.signals);
    forall n :: n in d ==> Announced(s, n, d[n]) && !Gone(s, n, d[n])
  }

  ghost predicate Inv(s: State) {
    Members(s) && NoGhosts(s)
  }

  lemma {:induction false} ConnStepKeeps(s: State, c: nat, k: Conn)
    requires Inv(s) && c < |s.conns| && ConnOk(k)
    requires k.announced == s.conns[c].announced && k.phase != Closed && s.conns[c].phase != Closed
    ensures Inv(s.(conns := s.conns[c := k]))
  {
    hide SettleAll, ConnOk;
  }

  lemma {:induction false} ChanStepKeeps(s: State, conns: seq<Conn>, rosters: seq<map<Name, nat>>)
    requires Inv(s) && |conns| == |s.conns|
    requires forall i :: 0 <= i < |conns| ==> conns[i] == s.conns[i].(chan := conns[i].chan)
    ensures Inv(s.(conns := conns, rosters := rosters))
  {
    hide SettleAll, ConnOk;
    forall c | 0 <= c < |conns| ensures ConnOk(conns[c]) { ChannelKeepsConn(s.conns[c], conns[c].chan); }
  }

  lemma {:induction false} AnnounceKeeps(s: State, c: nat)
    requires Inv(s) && InPhase(s, c, Announcing)
    ensures Inv(Do(s, Announce(c)))
  {
    hide SettleAll, ConnOk;
    var k := s.conns[c];
    AnnounceKeepsConn(k);
    var d, t := SettleAll(s.clients, s.signals), Do(s, Announce(c));
    SettleSnoc(s.clients, s.signals, New(k.name, c));
    assert Announced(t, k.name, c);
    AnnouncedMonotone(s, t);
    var e := d[k.name := c];
    forall n | n in e ensures Announced(t, n, e[n]) && !Gone(t, n, e[n]) {}
  }

  /** Announced names are never taken back, and connections are never removed. */
  lemma {:induction false} AnnouncedMonotone(s: State, t: State)
    requires |s.conns| <= |t.conns|
    requires forall i :: 0 <= i < |s.conns| ==> s.conns[i].announced <= t.conns[i].announced
    ensures forall n: Name, c: nat :: Announced(s, n, c) ==> Announced(t, n, c)
  {
  }

  lemma {:induction false} ExitKeeps(s: State, c: nat)
    requires Inv(s) && InPhase(s, c, Leaving)
    ensures Inv(Do(s, SendExit(c)))
  {
    hide SettleAll, ConnOk;
    var k := s.conns[c];
    CloseKeepsConn(k);
    var d, t := SettleAll(s.clients, s.signals), Do(s, SendExit(c));
    SettleSnoc(s.clients, s.signals, Exit(k.name));
    AnnouncedMonotone(s, t);
    var e := d - {k.name};
    forall n | n in e ensures Announced(t, n, e[n]) && !Gone(t, n, e[n]) {}
  }

  lemma {:induction false} ManageKeeps(s: State)
    requires Inv(s) && s.signals != []
    ensures Inv(Do(s, Manage))
  {
    hide SettleAll, ConnOk;
    SettleFirst(s.clients, s.signals);
  }

  lemma {:induction false} CloseClientKeeps(s: State, name: Name)
    requires Inv(s)
    ensures Inv(Do(s, CloseClient(name)))
  {
    hide SettleAll, ConnOk;
    SettleRemovedIf(s.clients, name, s.signals);
    var d, e := SettleAll(s.clients, s.signals), SettleAll(s.clients - {name}, s.signals);
    assert forall n :: n in e ==> n in d && e[n] == d[n];
  }

  lemma {:induction false} StepKeeps(s: State, step: Step)
    requires Inv(s)
    ensures Inv(Do(s, step))
  {
    hide Inv, SettleAll, ConnOk;
    match step
    case Accept(addr) => AcceptKeeps(s, addr);
    case Auth(c, client, ok) =>
      if InPhase(s, c, Live) {
        ConnOkOf(s, c);
        AuthKeepsConn(s.conns[c], client, ok);
        ConnStepKeeps(s, c, DoAuth(s.conns[c], client, ok));
      }
    case Announce(c) => if InPhase(s, c, Announcing) { AnnounceKeeps(s, c); }
    case Break(c) =>
      if InPhase(s, c, Live) {
        PhaseMoves(s, c);
        ConnStepKeeps(s, c, s.conns[c].(phase := Closing));
      }
    case Disconnect(c) =>
      if InPhase(s, c, Closing) {
        PhaseMoves(s, c);
        ConnStepKeeps(s, c, DoDisconnect(s.conns[c]));
      }
    case SendExit(c) => if InPhase(s, c, Leaving) { ExitKeeps(s, c); }
    case Manage => if s.signals != [] { ManageKeeps(s); }
    case CloseClient(name) => CloseClientKeeps(s, name);
    case Broadcast => ChanStepKeeps(s, Do(s, Broadcast).conns, Do(s, Broadcast).rosters);
    case OnSend(c) => ChanStepKeeps(s, Do(s, step).conns, s.rosters);
    case Hangup(c) => ChanStepKeeps(s, Do(s, step).conns, s.rosters);
  }

  lemma {:induction false} ConnOkOf(s: State, c: nat)
    requires Inv(s) && c < |s.conns|
    ensures ConnOk(s.conns[c])
  {
  }

  lemma {:induction false} PhaseMoves(s: State, c: nat)
    requires Inv(s) && c < |s.conns|
    ensures s.conns[c].phase == Live ==> ConnOk(s.conns[c].(phase := Closing))
    ensures s.conns[c].phase == Closing ==> ConnOk(DoDisconnect(s.conns[c]))
  {
    hide SettleAll;
    var k := s.conns[c];
    assert ConnOk(k);
  }

  lemma {:induction false} AcceptKeeps(s: State, addr: nat)
    requires Inv(s)
    ensures Inv(Do(s, Accept(addr)))
  {
    hide SettleAll, ConnOk;
    var t := Do(s, Accept(addr));
    assert ConnOk(t.conns[|s.conns|]) by { NewcomerOk(t.conns[|s.conns|]); }
    assert forall c :: 0 <= c < |s.conns| ==> t.conns[c] == s.conns[c];
  }

  lemma {:induction false} NewcomerOk(k: Conn)
    requires k.phase == Live && !k.authed && k.name.addr == k.addr
    requires k.attempts == [] && k.announced == {} && k.disconnects == []
    ensures ConnOk(k)
  {
  }

  lemma {:induction false} RunKeeps(capacity: nat, steps: seq<Step>)
    ensures Inv(Run(Start(capacity), steps))
  {
    hide Do;
    if steps != [] {
      hide Inv;
      RunKeeps(capacity, steps[..|steps| - 1]);
      StepKeeps(Run(Start(capacity), steps[..|steps| - 1]), steps[|steps| - 1]);
    }
  }

  // ----- theorems on every interleaving -----

  /** Membership: every entry of the map is a connection at that address whose on_auth accepted that client name. */
  lemma {:induction false} EntriesAreAuthenticated(capacity: nat, steps: seq<Step>, n: Name)
    ensures var s := Run(Start(capacity), steps);
      n in s.clients ==>
        s.clients[n] < |s.conns| && s.conns[s.clients[n]].addr == n.addr && Accepted(s.conns[s.clients[n]], n.client)
  {
    hide Run, SettleAll;
    RunKeeps(capacity, steps);
  }

  /**
   * on_disconnect is called once for a connection that authenticated and terminated, with the client name of its last
   * auth request, and never otherwise.
   */
  lemma {:induction false} DisconnectOnceIffAuthenticated(capacity: nat, steps: seq<Step>, c: nat)
    ensures var s := Run(Start(capacity), steps);
      c < |s.conns| ==>
        var k := s.conns[c];
        if k.phase in {Leaving, Closed} && AnyAccepted(k)
        then k.disconnects == [k.attempts[|k.attempts| - 1].0] else k.disconnects == []
  {
    hide Run, SettleAll;
    RunKeeps(capacity, steps);
  }

  /** The manager was told about the client named to on_disconnect exactly if on_auth ever accepted that name. */
  lemma {:induction false} FarewellIsKnownIff(capacity: nat, steps: seq<Step>, c: nat)
    requires var s := Run(Start(capacity), steps); c < |s.conns| && s.conns[c].disconnects != []
    ensures var k := Run(Start(capacity), steps).conns[c];
      k.attempts != [] && var client := k.attempts[|k.attempts| - 1].0;
      && k.disconnects == [client]
      && (Name(client, k.addr) in k.announced <==> Accepted(k, client))
  {
    hide Run, SettleAll;
    RunKeeps(capacity, steps);
    assert ConnOk(Run(Start(capacity), steps).conns[c]);
  }

  /** With at most one auth request per connection, drained signals leave no entry of a terminated connection. */
  lemma {:induction false} NoLeakWithOneAttempt(capacity: nat, steps: seq<Step>, n: Name)
    requires var s := Run(Start(capacity), steps);
      s.signals == [] && n in s.clients && s.clients[n] < |s.conns| && |s.conns[s.clients[n]].attempts| <= 1
    ensures var s := Run(Start(capacity), steps); s.conns[s.clients[n]].phase != Closed
  {
    hide Run;
    RunKeeps(capacity, steps);
    var s := Run(Start(capacity), steps);
    assert SettleAll(s.clients, s.signals) == s.clients;
    var k := s.conns[s.clients[n]];
    assert Accepted(k, n.client) && k.name == Name(k.name.client, k.addr);
  }
}
