/** A reconnect is harmless exactly in quiet states: otherwise some later run hands a waiter a wrong response. */
module ClientReconnect {
  import opened Bits
  import opened Packets
  import opened RequestIds
  import opened Client
  import opened ClientProofs

  // ----- runs -----

  lemma {:induction false} RunSnoc(c: State, steps: seq<Step>, step: Step)
    ensures Run(c, steps + [step]) == Do(Run(c, steps), step)
  {
    assert (steps + [step])[..|steps|] == steps;
  }

  lemma {:induction false} AllowedSnoc(c: State, steps: seq<Step>, step: Step)
    ensures AllAllowed(c, steps + [step]) <==> AllAllowed(c, steps) && Allowed(Run(c, steps), step)
  {
    assert (steps + [step])[..|steps|] == steps;
  }

  lemma {:induction false} CounterOf(gen: u32, n: nat)
    ensures (gen + 0) % 0x1_0000_0000 == gen
    ensures n > 0 ==> (gen + n) % 0x1_0000_0000 == ((gen + (n - 1)) % 0x1_0000_0000 + 1) % 0x1_0000_0000
  {
  }

  lemma {:induction false} IdAfterCalls(gen: u32, n: nat)
    requires gen == (1 + n) % 0x1_0000_0000
    ensures RequestIdTrim(gen) == (1 + n) % MAX_24
  {
    hide RequestIdTrim;
    NthIdIsSum(1, n);
    assert NthId(1, n) == RequestIdTrim(gen);
  }

  /** Some run within the bounds, in which no lock times out, leads from `c` to `d`. */
  ghost predicate Reach(c: State, d: State) {
    exists steps :: AllAllowed(c, steps) && Timely(steps) && Run(c, steps) == d
  }

  ghost predicate Timely(steps: seq<Step>) {
    Register(false) !in steps
  }

  lemma {:induction false} ReachStep(c: State, d: State, step: Step)
    requires Reach(c, d) && !step.Reconnect? && step != Register(false)
    requires |Do(d, step).tickets| <= Do(d, step).base + MAX_24
    ensures Reach(c, Do(d, step))
  {
    hide Do, Quiet;
    var steps :| AllAllowed(c, steps) && Timely(steps) && Run(c, steps) == d;
    RunSnoc(c, steps, step);
    AllowedSnoc(c, steps, step);
  }

  lemma {:induction false} ReachSelf(c: State)
    ensures Reach(c, c)
  {
    assert AllAllowed(c, []) && Timely([]) && Run(c, []) == c;
  }

  /** Any number of user calls only allocates. */
  lemma {:induction false} ReachCalls(c: State, d: State, n: nat) returns (e: State)
    requires Reach(c, d) && |d.tickets| + n <= d.base + MAX_24
    ensures Reach(c, e)
    ensures e == d.(gen := e.gen, tickets := e.tickets) && e.gen == (d.gen + n) % 0x1_0000_0000
    ensures |e.tickets| == |d.tickets| + n && e.tickets[..|d.tickets|] == d.tickets
  {
    hide RequestIdTrim, Run, Reach;
    CounterOf(d.gen, n);
    if n == 0 {
      e := d;
    } else {
      var f := ReachCalls(c, d, n - 1);
      ReachStep(c, f, Call(SubDepth));
      e := Do(f, Call(SubDepth));
    }
  }

  // ----- what a reconnect can leave behind -----

  /** The state right after a reconnect. */
  ghost predicate Fresh(c: State) {
    && c.phase == Starting && Idle(c) && c.inbox == [] && c.room > 0
    && c.gen == 1 && c.base == |c.tickets|
    && forall k :: k in c.gone ==> k < c.base
  }

  /** The auth request of the new epoch can get any id, by calls that come first. */
  lemma {:induction false} ConnectAt(c: State, id: u32) returns (d: State, k: nat)
    requires Fresh(c) && id < MAX_24
    ensures Reach(c, d) && d == c.(gen := d.gen, tickets := d.tickets, sent := d.sent, phase := Up)
    ensures |c.tickets| <= k && |d.tickets| == k + 1 && d.tickets[..|c.tickets|] == c.tickets
    ensures d.tickets[k] == Ticket(Auth, id, Internal) && WasSent(d.sent, k) && |d.tickets| <= d.base + MAX_24
  {
    hide RequestIdTrim, Run, Reach;
    ReachSelf(c);
    var n := if id == 0 then MAX_24 - 1 else id - 1;
    var c1 := ReachCalls(c, c, n);
    k := |c1.tickets|;
    IdAfterCalls(c1.gen, n);
    ReachStep(c, c1, Connect);
    d := Do(c1, Connect);
    assert d.sent[|c1.sent|].ticket == k;
  }

  /** The peer answers a request, and its response gets as far as the processing channel. */
  lemma {:induction false} Deliver(c: State, d: State, k: nat) returns (e: State)
    requires Reach(c, d) && d.phase == Up && Idle(d) && d.inbox == [] && d.process == [] && d.room > 0
    requires WasSent(d.sent, k) && k < |d.tickets| <= d.base + MAX_24 && d.tickets[k].cmd != Heartbeat
    ensures Reach(c, e)
    ensures e == d.(process := [Reply(k, d.tickets[k].cmd, d.tickets[k].id, true)],
                    subscribing := if d.tickets[k].cmd == Auth then d.subscribes else [])
  {
    hide Run, Reach;
    ReachStep(c, d, PeerReplies(k, true));
    var d1 := Do(d, PeerReplies(k, true));
    assert d1.inbox == [Reply(k, d.tickets[k].cmd, d.tickets[k].id, true)];
    ReachStep(c, d1, Receive(false));
    e := Do(d1, Receive(false));
  }

  /**
   * An entry left in the pending map takes the auth response of the next epoch, whenever that has its id: on_connected
   * is not called, and a caller that still waits gets it as its own response.
   */
  lemma {:induction false} StaleEntryTakesAuth(c: State, id: u32) returns (d: State, k: nat)
    requires CanReconnect(c) && c.process == [] && c.room > 0 && (forall k :: k in c.gone ==> k < |c.tickets|)
    requires id in c.pending && id < MAX_24 && c.pending[id] < |c.tickets|
    ensures Reach(Do(c, Step.Reconnect), d)
    ensures |c.tickets| <= k && HasStage(d, k, Internal) && d.tickets[k].cmd == Auth
    ensures d.answered ==
      c.answered + (if c.pending[id] in c.gone then [] else [(c.pending[id], Reply(k, Auth, id, true))])
    ensures d.process == [] && d.connected == c.connected && d.passed == c.passed && id !in d.pending
  {
    hide Run, Reach, RequestIdTrim;
    var o := Do(c, Step.Reconnect);
    var d1;
    d1, k := ConnectAt(o, id);
    var d2 := Deliver(o, d1, k);
    ReachStep(o, d2, Process);
    d := Do(d2, Process);
  }

  /** The new epoch is up and the call of ticket `k`, which has the id `id`, is about to queue its request. */
  ghost predicate Staged(d: State, k: nat, id: u32) {
    && d.phase == Up && Idle(d) && d.inbox == [] && d.room > 0
    && d.base <= k < |d.tickets| <= d.base + MAX_24
    && d.tickets[k] == Ticket(SubDepth, id, Held) && k !in d.gone
  }

  /** Some call of the new epoch gets the given id. */
  lemma {:induction false} Collide(c: State, id: u32) returns (d: State, k: nat)
    requires Fresh(c) && id < MAX_24
    ensures Reach(c, d) && Staged(d, k, id)
    ensures d == c.(gen := d.gen, tickets := d.tickets, sent := d.sent, phase := Up)
    ensures d.tickets[..|c.tickets|] == c.tickets
  {
    hide RequestIdTrim, Run, Reach;
    ReachSelf(c);
    if id == 1 {
      IdAfterCalls(1, 0);
      k := |c.tickets|;
      ReachStep(c, c, Call(SubDepth));
      var c1 := Do(c, Call(SubDepth));
      ReachStep(c, c1, Connect);
      d := Do(c1, Connect);
    } else {
      var n := if id == 0 then MAX_24 - 1 else id - 1;
      ReachStep(c, c, Connect);
      var c1 := Do(c, Connect);
      var c2 := ReachCalls(c, c1, n - 1);
      IdAfterCalls(c2.gen, n);
      d, k := CallAt(c, c2, id);
    }
  }

  lemma {:induction false} CallAt(c: State, d: State, id: u32) returns (e: State, k: nat)
    requires Reach(c, d) && d.base <= |d.tickets| < d.base + MAX_24 && RequestIdTrim(d.gen) == id
    requires d.phase == Up && Idle(d) && d.inbox == [] && d.room > 0
    requires forall j :: j in d.gone ==> j < |d.tickets|
    ensures Reach(c, e) && Staged(e, k, id)
    ensures e == d.(gen := e.gen, tickets := d.tickets + [Ticket(SubDepth, id, Held)])
  {
    hide RequestIdTrim, Run, Reach;
    ReachStep(c, d, Call(SubDepth));
    k := |d.tickets|;
    e := Do(d, Call(SubDepth));
  }

  /** Same requests, whatever became of them. */
  ghost predicate SameRequests(d: State, e: State) {
    |e.tickets| == |d.tickets| &&
    forall i :: 0 <= i < |d.tickets| ==> e.tickets[i].id == d.tickets[i].id && e.tickets[i].cmd == d.tickets[i].cmd
  }

  /** Forwards and registers every queued request. */
  lemma {:induction false} Drain(c: State, d: State, k: nat, id: u32) returns (e: State)
    requires Reach(c, d) && Staged(d, k, id)
    requires forall i :: 0 <= i < |d.queue| ==> d.queue[i] < d.base
    ensures Reach(c, e) && Staged(e, k, id) && e.queue == [] && SameRequests(d, e)
    ensures e == d.(queue := [], tickets := e.tickets, sent := e.sent, pending := e.pending)
    ensures d.sent <= e.sent && forall i :: 0 <= i < |d.queue| ==> WasSent(e.sent, d.queue[i])
    decreases |d.queue|
  {
    hide Run, Reach;
    if d.queue == [] {
      e := d;
    } else {
      ReachStep(c, d, Forward(true));
      var d1 := Do(d, Forward(true));
      ReachStep(c, d1, Register(true));
      var d2 := Do(d1, Register(true));
      assert forall i :: 0 <= i < |d2.queue| ==> d2.queue[i] == d.queue[i + 1];
      assert d2.sent[|d.sent|].ticket == d.queue[0];
      e := Drain(c, d2, k, id);
    }
  }

  /** The staged call's request is sent and registered under its id. */
  lemma {:induction false} SendStaged(c: State, d: State, k: nat, id: u32) returns (e: State)
    requires Reach(c, d) && Staged(d, k, id) && d.queue == []
    ensures Reach(c, e) && SameRequests(d, e) && k < |e.tickets|
    ensures e == d.(tickets := e.tickets, sent := d.sent + [Out(UserRequest, SubDepth, k)],
                    pending := d.pending[id := k])
  {
    hide Run, Reach;
    ReachStep(c, d, Enqueue(k));
    var d1 := Do(d, Enqueue(k));
    assert d1.queue == [k];
    ReachStep(c, d1, Forward(true));
    var d2 := Do(d1, Forward(true));
    ReachStep(c, d2, Register(true));
    e := Do(d2, Register(true));
  }

  /** Some caller that still waited was given the response to another request. */
  ghost predicate Misled(c: State) {
    exists i :: 0 <= i < |c.answered| && c.answered[i].1.ticket != c.answered[i].0
  }

  /** A reply of an earlier epoch that still waits to be processed answers the new request with its id. */
  lemma {:induction false} LateReplyMisleads(c: State, d: State, k: nat) returns (e: State)
    requires d.process != [] && d.process[0].ticket < d.base
    requires Reach(c, d) && Staged(d, k, d.process[0].id) && d.queue == []
    ensures Reach(c, e) && Misled(e)
  {
    hide Run, Reach;
    var r := d.process[0];
    var d1 := SendStaged(c, d, k, r.id);
    ReachStep(c, d1, Process);
    e := Do(d1, Process);
    assert e.answered[|d.answered|] == (k, r);
  }

  /** A request of an earlier epoch that is sent in this one: its reply answers the new request with its id. */
  lemma {:induction false} LateRequestMisleads(c: State, d: State, k: nat, h: nat) returns (e: State)
    requires h < d.base && h < |d.tickets| && WasSent(d.sent, h) && d.tickets[h].cmd !in {Heartbeat, Auth}
    requires Reach(c, d) && Staged(d, k, d.tickets[h].id) && d.queue == [] && d.process == []
    ensures Reach(c, e) && Misled(e)
  {
    hide Run, Reach;
    var r := Reply(h, d.tickets[h].cmd, d.tickets[h].id, true);
    var d1 := SendStaged(c, d, k, r.id);
    var i :| 0 <= i < |d.sent| && d.sent[i].ticket == h;
    assert d1.sent[i].ticket == h;
    var d2 := Deliver(c, d1, h);
    ReachStep(c, d2, Process);
    e := Do(d2, Process);
    assert e.answered[|d.answered|] == (k, r);
  }

  // ----- exactly when a reconnect is harmless -----

  /** No run within the bounds misleads a caller, not even if locks time out. */
  ghost predicate Harmless(c: State) {
    forall steps :: AllAllowed(c, steps) ==> !Misled(Run(c, steps))
  }

  lemma {:induction false} UnquietMisleads(c: State) returns (e: State)
    requires Inv(c) && CanReconnect(c) && !Quiet(c) && c.room > 0
    ensures Reach(Do(c, Step.Reconnect), e) && Misled(e)
  {
    hide Run, Reach, NthId, Counter;
    var o := Do(c, Step.Reconnect);
    if c.process != [] {
      var id := c.process[0].id;
      var d, k := Collide(o, id);
      var f := Drain(o, d, k, id);
      e := LateReplyMisleads(o, f, k);
    } else if c.queue != [] {
      var h := c.queue[0];
      var d, k := Collide(o, c.tickets[h].id);
      assert d.tickets[h] == c.tickets[h];
      assert forall i :: 0 <= i < |d.queue| ==> d.queue[i] < d.base;
      var f := Drain(o, d, k, c.tickets[h].id);
      assert WasSent(f.sent, d.queue[0]);
      e := LateRequestMisleads(o, f, k, h);
    } else if h: nat :| h < |c.tickets| && c.tickets[h].stage == Held {
      var d, k := Collide(o, c.tickets[h].id);
      assert d.tickets[h] == c.tickets[h];
      ReachStep(o, d, Enqueue(h));
      var d1 := Do(d, Enqueue(h));
      assert d1.queue == [h];
      var f := Drain(o, d1, k, c.tickets[h].id);
      assert WasSent(f.sent, d1.queue[0]);
      e := LateRequestMisleads(o, f, k, h);
    } else {
      var id :| id in c.pending && c.pending[id] !in c.gone;
      var k;
      e, k := StaleEntryTakesAuth(c, id);
      assert e.answered[|c.answered|].0 == c.pending[id];
    }
  }

  /**
   * In every run within the bounds: a reconnect now is harmless exactly if the state is quiet. Every pending caller
   * gone and nothing queued, held by a call or waiting to be processed: then no later run hands a caller another
   * request's response. Anything else left over: then one does, and no lock need time out for it.
   */
  lemma {:induction false} QuietIff(subscribes: seq<Command>, room: nat, steps: seq<Step>)
    requires AllAllowed(Start(subscribes, room), steps) && room > 0
    ensures var c := Run(Start(subscribes, room), steps); var after := Do(c, Step.Reconnect);
      CanReconnect(c) ==>
        && (Quiet(c) <==> Harmless(after))
        && (Quiet(c) <==> forall d :: Reach(after, d) ==> !Misled(d))
  {
    hide Run, AllAllowed, Inv, Quiet;
    StartKeeps(subscribes, room);
    RunKeeps(Start(subscribes, room), steps);
    RoomStays(Start(subscribes, room), steps);
    var c := Run(Start(subscribes, room), steps);
    var after := Do(c, Step.Reconnect);
    if CanReconnect(c) && !Quiet(c) {
      var e := UnquietMisleads(c);
      var run :| AllAllowed(after, run) && Timely(run) && Run(after, run) == e;
    }
    if CanReconnect(c) && Quiet(c) {
      ReconnectKeeps(c);
      forall run | AllAllowed(after, run) ensures !Misled(Run(after, run)) {
        RunKeeps(after, run);
        NobodyMisled(Run(after, run));
      }
    }
  }

  lemma {:induction false} NobodyMisled(c: State)
    requires Inv(c)
    ensures !Misled(c)
  {
  }

  lemma {:induction false} RoomStays(c: State, steps: seq<Step>)
    ensures Run(c, steps).room == c.room
  {
    hide Do;
    if steps != [] {
      RoomStays(c, steps[..|steps| - 1]);
      RoomStep(Run(c, steps[..|steps| - 1]), steps[|steps| - 1]);
    }
  }

  lemma {:induction false} RoomStep(c: State, step: Step)
    ensures Do(c, step).room == c.room
  {
  }
}
