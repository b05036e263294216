/** Exactly who is in the client map: by the last signal about a name, and by what the connection itself did. */
module ServerMap {
  import opened Server
  import opened ServerProofs

  // ----- the last word on a name -----

  /** Processing what waits gives the map that all signals ever sent make, without what the operator closed since. */
  ghost predicate LogExact(s: State) {
    SettleAll(s.clients, s.signals) == SettleAll(map[], s.sent) - s.kicked
  }

  /** The signal number `i` is the last one about this name. */
  ghost predicate LastWord(sent: seq<Signal>, i: nat, n: Name) {
    i < |sent| && sent[i].name == n && forall j :: i < j < |sent| ==> sent[j].name != n
  }

  lemma {:induction false} SettleLastWord(sent: seq<Signal>, n: Name, c: nat)
    ensures var d := SettleAll(map[], sent);
      n in d && d[n] == c <==> exists i: nat :: LastWord(sent, i, n) && sent[i] == New(n, c)
  {
    if sent != [] {
      var last, before := |sent| - 1, sent[..|sent| - 1];
      SettleLastWord(before, n, c);
      if sent[last].name == n {
        assert LastWord(sent, last, n);
      } else {
        assert forall i :: 0 <= i < last ==> before[i] == sent[i];
        forall i: nat ensures LastWord(before, i, n) <==> LastWord(sent, i, n) {
          if LastWord(sent, i, n) { assert i < last; }
        }
      }
    }
  }

  lemma {:induction false} StepKeepsLog(s: State, step: Step)
    requires LogExact(s)
    ensures LogExact(Do(s, step))
  {
    hide SettleAll, NewWaits, BroadcastTo;
    match step
    case Announce(c) =>
      if InPhase(s, c, Announcing) {
        SettleSnoc(s.clients, s.signals, New(s.conns[c].name, c));
        SettleSnoc(map[], s.sent, New(s.conns[c].name, c));
      }
    case SendExit(c) =>
      if InPhase(s, c, Leaving) {
        SettleSnoc(s.clients, s.signals, Exit(s.conns[c].name));
        SettleSnoc(map[], s.sent, Exit(s.conns[c].name));
      }
    case Manage => if s.signals != [] { SettleFirst(s.clients, s.signals); }
    case CloseClient(name) => SettleRemovedIf(s.clients, name, s.signals);
    case _ =>
  }

  lemma {:induction false} RunKeepsLog(capacity: nat, steps: seq<Step>)
    ensures LogExact(Run(Start(capacity), steps))
  {
    hide Do;
    if steps != [] {
      hide LogExact;
      RunKeepsLog(capacity, steps[..|steps| - 1]);
      StepKeepsLog(Run(Start(capacity), steps[..|steps| - 1]), steps[|steps| - 1]);
    }
  }

  /**
   * Who is in the map, in every run. Once the waiting signals are processed, a connection is listed under a name
   * exactly when its own New signal is the last one ever sent about that name and the operator did not close it since:
   * no connection announced that name or exited under it after this one announced it.
   */
  lemma {:induction false} ListedIff(capacity: nat, steps: seq<Step>, n: Name, c: nat)
    ensures var s := Run(Start(capacity), steps); var d := SettleAll(s.clients, s.signals);
      n in d && d[n] == c <==> n !in s.kicked && exists i: nat :: LastWord(s.sent, i, n) && s.sent[i] == New(n, c)
  {
    hide Run;
    RunKeepsLog(capacity, steps);
    hide SettleAll;
    SettleLastWord(Run(Start(capacity), steps).sent, n, c);
  }

  /** Closing a client takes its name out of the map at once, and nothing else. */
  lemma {:induction false} ClosedIsOut(s: State, name: Name, n: Name)
    ensures var t := Do(s, CloseClient(name));
      && t.signals == s.signals && t.conns == s.conns
      && (n in t.clients <==> n in s.clients && n != name) && (n in t.clients ==> t.clients[n] == s.clients[n])
  {
  }

  // ----- when an address is not shared -----

  ghost predicate Overlapless(s: State, addr: nat) {
    forall i, j :: 0 <= i < j < |s.conns| && s.conns[i].addr == s.conns[j].addr == addr ==> s.conns[i].phase == Closed
  }

  /** No later connection came from the same address. */
  ghost predicate Latest(s: State, c: nat) {
    c < |s.conns| && forall j :: c < j < |s.conns| ==> s.conns[j].addr != s.conns[c].addr
  }

  /** Announced, not closed under that name, not closed by the operator: must be listed once signals are processed. */
  ghost predicate Due(s: State, n: Name, c: nat) {
    Latest(s, c) && n in s.conns[c].announced && n !in s.kicked && !Gone(s, n, c)
  }

  ghost predicate Listed(s: State, addr: nat) {
    var d := SettleAll(s.clients, s.signals);
    forall n: Name, c: nat :: Due(s, n, c) && s.conns[c].addr == addr ==> n in d && d[n] == c
  }

  lemma {:induction false} AnnounceKeepsListed(s: State, c: nat, addr: nat)
    requires Inv(s) && Overlapless(s, addr) && Listed(s, addr) && InPhase(s, c, Announcing)
    ensures Listed(Do(s, Announce(c)), addr)
  {
    hide SettleAll, Accepted, AnyAccepted;
    var name, t := s.conns[c].name, Do(s, Announce(c));
    SettleSnoc(s.clients, s.signals, New(name, c));
    forall n: Name, b: nat | Due(t, n, b) && t.conns[b].addr == addr && (n, b) != (name, c)
      ensures n != name && Due(s, n, b) {
      assert ConnOk(s.conns[b]) && ConnOk(s.conns[c]);
      assert t.conns[b].addr == s.conns[b].addr;
      LatestBack(s, t, b);
    }
  }

  lemma {:induction false} LatestBack(s: State, t: State, b: nat)
    requires Latest(t, b) && |s.conns| == |t.conns|
    requires forall i :: 0 <= i < |s.conns| ==> s.conns[i].addr == t.conns[i].addr
    ensures Latest(s, b)
  {
  }

  lemma {:induction false} ExitKeepsListed(s: State, c: nat, addr: nat)
    requires Inv(s) && Overlapless(s, addr) && Listed(s, addr) && InPhase(s, c, Leaving)
    ensures Listed(Do(s, SendExit(c)), addr)
  {
    hide SettleAll, Accepted, AnyAccepted;
    var name, t := s.conns[c].name, Do(s, SendExit(c));
    SettleSnoc(s.clients, s.signals, Exit(name));
    forall n: Name, b: nat | Due(t, n, b) && t.conns[b].addr == addr ensures n != name && Due(s, n, b) {
      assert ConnOk(s.conns[b]) && ConnOk(s.conns[c]);
      assert t.conns[b].addr == s.conns[b].addr;
      LatestBack(s, t, b);
    }
  }

  /** Steps that leave the map, the signals, the names and every closed connection alone. */
  lemma {:induction false} QuietStepKeepsListed(s: State, t: State, addr: nat)
    requires Listed(s, addr) && t.clients == s.clients && t.signals == s.signals && t.kicked == s.kicked
    requires |s.conns| == |t.conns|
    requires forall i :: 0 <= i < |s.conns| ==>
      && t.conns[i].addr == s.conns[i].addr && t.conns[i].announced == s.conns[i].announced
      && (s.conns[i].phase == Closed ==> t.conns[i].phase == Closed && t.conns[i].name == s.conns[i].name)
    ensures Listed(t, addr)
  {
    hide SettleAll;
    forall n: Name, b: nat | Due(t, n, b) ensures Due(s, n, b) {
      LatestBack(s, t, b);
    }
  }

  lemma {:induction false} AcceptKeepsListed(s: State, newAddr: nat, addr: nat)
    requires Listed(s, addr)
    ensures Listed(Do(s, Accept(newAddr)), addr)
  {
    hide SettleAll;
    var t := Do(s, Accept(newAddr));
    forall n: Name, b: nat | Due(t, n, b) ensures Due(s, n, b) {
      assert forall j :: 0 <= j < |s.conns| ==> t.conns[j] == s.conns[j];
    }
  }

  lemma {:induction false} MapStepKeepsListed(s: State, step: Step, addr: nat)
    requires Listed(s, addr) && (step.Manage? || step.CloseClient?)
    ensures Listed(Do(s, step), addr)
  {
    hide SettleAll;
    var t := Do(s, step);
    match step
    case Manage =>
      if s.signals != [] { SettleFirst(s.clients, s.signals); }
      forall n: Name, b: nat | Due(t, n, b) ensures Due(s, n, b) {}
    case CloseClient(name) =>
      SettleRemovedIf(s.clients, name, s.signals);
      forall n: Name, b: nat | Due(t, n, b) ensures Due(s, n, b) {}
  }

  lemma {:induction false} StepKeepsListed(s: State, step: Step, addr: nat)
    requires Inv(s) && Overlapless(s, addr) && Listed(s, addr) && NoOverlap(s, step, addr)
    ensures Overlapless(Do(s, step), addr) && Listed(Do(s, step), addr)
  {
    hide Inv, SettleAll, Listed, PushCopies;
    match step
    case Accept(newAddr) => AcceptKeepsListed(s, newAddr, addr);
    case Announce(c) => if InPhase(s, c, Announcing) { AnnounceKeepsListed(s, c, addr); }
    case SendExit(c) => if InPhase(s, c, Leaving) { ExitKeepsListed(s, c, addr); }
    case Manage => MapStepKeepsListed(s, step, addr);
    case CloseClient(name) => MapStepKeepsListed(s, step, addr);
    case _ => QuietStepKeepsListed(s, Do(s, step), addr);
  }

  lemma {:induction false} RunKeepsListed(capacity: nat, steps: seq<Step>, addr: nat)
    requires NeverOverlaps(Start(capacity), steps, addr)
    ensures Overlapless(Run(Start(capacity), steps), addr) && Listed(Run(Start(capacity), steps), addr)
  {
    hide Do, NoOverlap;
    if steps != [] {
      hide Overlapless, Listed;
      RunKeepsListed(capacity, steps[..|steps| - 1], addr);
      RunKeeps(capacity, steps[..|steps| - 1]);
      StepKeepsListed(Run(Start(capacity), steps[..|steps| - 1]), steps[|steps| - 1], addr);
    }
  }

  /**
   * Who is in the map, from the connection's side. If its address was never taken while an earlier connection there
   * was alive, the newest connection of that address is listed under a name exactly when it announced the name, did
   * not close under it, and the operator did not close it since.
   */
  lemma {:induction false} MapIsExact(capacity: nat, steps: seq<Step>, n: Name, c: nat)
    requires var s := Run(Start(capacity), steps);
      Latest(s, c) && NeverOverlaps(Start(capacity), steps, s.conns[c].addr)
    ensures var s := Run(Start(capacity), steps); var d := SettleAll(s.clients, s.signals);
      n in d && d[n] == c <==> n in s.conns[c].announced && !Gone(s, n, c) && n !in s.kicked
  {
    hide Run, NeverOverlaps;
    RunKeeps(capacity, steps);
    RunKeepsLog(capacity, steps);
    var s := Run(Start(capacity), steps);
    RunKeepsListed(capacity, steps, s.conns[c].addr);
    hide SettleAll;
    if n in s.conns[c].announced && !Gone(s, n, c) && n !in s.kicked { assert Due(s, n, c); }
  }

  /** So a terminated connection leaves nothing behind exactly when every other name it announced was closed for it. */
  lemma {:induction false} LeakIff(capacity: nat, steps: seq<Step>, c: nat)
    requires var s := Run(Start(capacity), steps);
      Latest(s, c) && NeverOverlaps(Start(capacity), steps, s.conns[c].addr) && s.conns[c].phase == Closed
    ensures var s := Run(Start(capacity), steps);
      NamesOf(SettleAll(s.clients, s.signals), c) == {} <==> s.conns[c].announced <= {s.conns[c].name} + s.kicked
  {
    hide Run, NeverOverlaps, SettleAll;
    var s := Run(Start(capacity), steps);
    forall n ensures n in NamesOf(SettleAll(s.clients, s.signals), c)
        <==> n in s.conns[c].announced && n != s.conns[c].name && n !in s.kicked {
      MapIsExact(capacity, steps, n, c);
    }
  }

  // ----- two ways the map goes wrong, from any state that allows them -----

  /**
   * A second auth under another client name, even a rejected one, leaves the first entry behind for good, and its name
   * is the one on_disconnect is told.
   */
  lemma {:induction false} SecondAuthLeaks(s: State, n: Name, c: nat, client: string)
    requires s.signals == [] && InPhase(s, c, Live) && n in s.clients && s.clients[n] == c
    requires s.conns[c].name == n && s.conns[c].addr == n.addr && client != n.client
    ensures var t := Do(Do(Do(Do(Do(s, Auth(c, client, false)), Break(c)), Disconnect(c)), SendExit(c)), Manage);
      && t.signals == [] && InPhase(t, c, Closed) && n in t.clients && t.clients[n] == c
      && t.conns[c].disconnects == s.conns[c].disconnects + (if s.conns[c].authed then [client] else [])
  {
    var t1 := Do(s, Auth(c, client, false));
    var t3 := Do(Do(t1, Break(c)), Disconnect(c));
    assert InPhase(t3, c, Leaving) && t3.conns[c].name == Name(client, n.addr);
    assert Do(t3, SendExit(c)).signals == [Exit(Name(client, n.addr))];
  }

  /** When an address is reused too early, the old connection's Exit signal removes the new connection's entry. */
  lemma {:induction false} EarlyReuseLosesEntry(s: State, n: Name, c: nat, e: nat)
    requires s.signals == [] && InPhase(s, c, Leaving) && InPhase(s, e, Announcing)
    requires s.conns[c].name == n && s.conns[e].name == n
    ensures var t := Do(Do(Do(Do(s, Announce(e)), SendExit(c)), Manage), Manage);
      t.signals == [] && InPhase(t, e, Live) && n in t.conns[e].announced && n !in t.clients
  {
    var t2 := Do(Do(s, Announce(e)), SendExit(c));
    assert t2.signals == [New(n, e), Exit(n)];
  }
}
