/** Every response that reaches a waiter answers that waiter's own request, and no waiter is answered twice. */
module ClientProofs {
  import opened Bits
  import opened Packets
  import opened RequestIds
  import opened Client

  // ----- the invariant -----

  /** The ids of this epoch are consecutive values of the counter, cut to 24 bits. */
  ghost predicate Ids(gen: u32, tickets: seq<Ticket>, base: nat) {
    && base <= |tickets| <= base + MAX_24
    && gen == Counter(1, |tickets| - base)
    && forall k :: base <= k < |tickets| ==> tickets[k].id == NthId(1, k - base)
  }

  predicate IsAt(tickets: seq<Ticket>, k: nat, stage: Stage) {
    k < |tickets| && tickets[k].stage == stage
  }

  /** Held, queued and registering requests are where their stage says, once, and belong to this epoch. */
  ghost predicate Outgoing(queue: seq<nat>, registering: Option<nat>, sent: seq<Out>, tickets: seq<Ticket>, base: nat) {
    && (forall k :: 0 <= k < |tickets| && tickets[k].stage == Held ==> base <= k)
    && (forall k :: 0 <= k < |tickets| && tickets[k].stage in {Held, Queued} ==> tickets[k].cmd !in {Heartbeat, Auth})
    && (forall i :: 0 <= i < |queue| ==> base <= queue[i] && IsAt(tickets, queue[i], Queued))
    && (forall i, j :: 0 <= i < j < |queue| ==> queue[i] != queue[j])
    && (forall k :: 0 <= k < |tickets| && tickets[k].stage == Registering ==> registering == Some(k))
    && (registering.Some? ==> base <= registering.value && IsAt(tickets, registering.value, Registering))
    && (forall i :: 0 <= i < |sent| ==>
          base <= sent[i].ticket < |tickets| && tickets[sent[i].ticket].stage !in {Held, Queued})
  }

  /** A reply carries the id and command of the request it answers. */
  ghost predicate Echoes(tickets: seq<Ticket>, base: nat, r: Reply) {
    base <= r.ticket < |tickets| && tickets[r.ticket].id == r.id && tickets[r.ticket].cmd == r.cmd
  }

  predicate Registered(tickets: seq<Ticket>, k: nat) {
    k < |tickets| && tickets[k].stage !in {Held, Queued, Registering}
  }

  /** Replies come from sent requests; a reply that can be looked up comes from one that was registered before. */
  ghost predicate Incoming(inbox: seq<Reply>, process: seq<Reply>, tickets: seq<Ticket>, base: nat) {
    && (forall i :: 0 <= i < |inbox| ==>
          Echoes(tickets, base, inbox[i]) && tickets[inbox[i].ticket].stage !in {Held, Queued})
    && (forall i :: 0 <= i < |process| ==> Echoes(tickets, base, process[i]) && Registered(tickets, process[i].ticket))
  }

  ghost predicate WaitsUnder(tickets: seq<Ticket>, base: nat, k: nat, id: u32) {
    base <= k && IsAt(tickets, k, Waiting) && tickets[k].id == id
  }

  /** Apart from callers that are gone, the pending map holds exactly the waiting requests, each under its own id. */
  ghost predicate PendingExact(pending: map<u32, nat>, gone: set<nat>, tickets: seq<Ticket>, base: nat) {
    && (forall id :: id in pending ==> pending[id] in gone || WaitsUnder(tickets, base, pending[id], id))
    && (forall k :: 0 <= k < |tickets| && tickets[k].stage == Waiting && k !in gone ==>
          tickets[k].id in pending && pending[tickets[k].id] == k)
    && (forall k :: k in gone ==> k < |tickets|)
  }

  /** Every answer went to the waiter of the request it answers, once. */
  ghost predicate AnswersRight(answered: seq<(nat, Reply)>, tickets: seq<Ticket>) {
    && (forall i :: 0 <= i < |answered| ==>
          answered[i].1.ticket == answered[i].0 && IsAt(tickets, answered[i].0, Answered)
          && answered[i].1.id == tickets[answered[i].0].id)
    && (forall i, j :: 0 <= i < j < |answered| ==> answered[i].0 != answered[j].0)
  }

  ghost predicate Inv(c: State) {
    && Ids(c.gen, c.tickets, c.base)
    && Outgoing(c.queue, c.registering, c.sent, c.tickets, c.base)
    && Incoming(c.inbox, c.process, c.tickets, c.base)
    && PendingExact(c.pending, c.gone, c.tickets, c.base)
    && AnswersRight(c.answered, c.tickets)
  }

  /** Within an epoch no two requests have the same id. */
  lemma {:induction false} OneTicketPerId(c: State, k: nat, l: nat)
    requires Ids(c.gen, c.tickets, c.base)
    requires c.base <= k < |c.tickets| && c.base <= l < |c.tickets| && c.tickets[k].id == c.tickets[l].id
    ensures k == l
  {
    hide NthId, Counter;
    if k < l { IdsDistinctInWindow(1, k - c.base, l - c.base); }
    if l < k { IdsDistinctInWindow(1, l - c.base, k - c.base); }
  }

  lemma {:induction false} CounterNext(start: u32, n: nat)
    ensures Counter(start, n + 1) == (Counter(start, n) + 1) % 0x1_0000_0000
  {
  }

  // ----- each step keeps it -----

  lemma {:induction false} AllocateKeeps(c: State, cmd: Command, stage: Stage)
    requires Inv(c) && |c.tickets| < c.base + MAX_24
    requires stage == Internal || (stage == Held && cmd !in {Heartbeat, Auth})
    ensures Inv(Allocate(c, cmd, stage))
  {
    hide NthId, RequestIdTrim;
    CounterNext(1, |c.tickets| - c.base);
    assert NthId(1, |c.tickets| - c.base) == RequestIdTrim(c.gen) by { NthIdUnfold(c); }
    var d := Allocate(c, cmd, stage);
    assert forall k :: 0 <= k < |c.tickets| ==> d.tickets[k] == c.tickets[k];
  }

  lemma {:induction false} NthIdUnfold(c: State)
    requires Ids(c.gen, c.tickets, c.base)
    ensures NthId(1, |c.tickets| - c.base) == RequestIdTrim(c.gen)
  {
    hide RequestIdTrim;
  }

  lemma {:induction false} InternalKeeps(c: State, cmd: Command, kind: Kind)
    requires Inv(c) && |c.tickets| < c.base + MAX_24
    ensures Inv(SendInternal(c, cmd, kind))
  {
    hide NthId, RequestIdTrim;
    AllocateKeeps(c, cmd, Internal);
  }

  lemma {:induction false} SubscribeKeeps(c: State)
    requires Inv(c) && |DoSubscribe(c).tickets| <= c.base + MAX_24
    ensures Inv(DoSubscribe(c))
  {
    hide Inv;
    if c.subscribing != [] {
      InternalKeeps(c, c.subscribing[0], Subscription);
      LoopKeeps(SendInternal(c, c.subscribing[0], Subscription), c.phase, c.subscribing[1..]);
    }
  }

  lemma {:induction false} EnqueueKeeps(c: State, k: nat)
    requires Inv(c)
    ensures Inv(DoEnqueue(c, k))
  {
    hide NthId, Counter;
  }

  lemma {:induction false} ForwardKeeps(c: State, ok: bool)
    requires Inv(c)
    ensures Inv(DoForward(c, ok))
  {
    hide NthId, Counter;
  }

  /** Registering never pushes out a caller that still waits. */
  lemma {:induction false} RegisterKeeps(c: State, timely: bool)
    requires Inv(c)
    ensures Inv(DoRegister(c, timely))
    ensures c.registering.Some? ==>
      var id := c.tickets[c.registering.value].id; id in c.pending ==> c.pending[id] in c.gone
  {
    hide NthId, Counter, PendingExact, Incoming, AnswersRight;
    if c.registering.Some? {
      RegisteringIsAlone(c);
      RegisterPending(c.pending, c.gone, c.tickets, c.base, c.registering.value);
      RegisterReplies(c, c.registering.value, if timely then Waiting else GivenUp);
    }
  }

  lemma {:induction false} RegisterReplies(c: State, k: nat, stage: Stage)
    requires Incoming(c.inbox, c.process, c.tickets, c.base) && AnswersRight(c.answered, c.tickets)
    requires IsAt(c.tickets, k, Registering) && stage in {Waiting, GivenUp}
    ensures var tickets := SetStage(c, k, stage).tickets;
      Incoming(c.inbox, c.process, tickets, c.base) && AnswersRight(c.answered, tickets)
  {
  }

  lemma {:induction false} RegisteringIsAlone(c: State)
    requires Inv(c) && c.registering.Some?
    ensures var id := c.tickets[c.registering.value].id; id in c.pending ==> c.pending[id] in c.gone
  {
    hide NthId, Counter;
    var id := c.tickets[c.registering.value].id;
    if id in c.pending && c.pending[id] !in c.gone {
      OneTicketPerId(c, c.registering.value, c.pending[id]);
    }
  }

  lemma {:induction false} RegisterPending(
      pending: map<u32, nat>, gone: set<nat>, tickets: seq<Ticket>, base: nat, k: nat)
    requires PendingExact(pending, gone, tickets, base) && base <= k && IsAt(tickets, k, Registering)
    requires tickets[k].id in pending ==> pending[tickets[k].id] in gone
    ensures PendingExact(pending[tickets[k].id := k], gone, tickets[k := tickets[k].(stage := Waiting)], base)
    ensures PendingExact(pending, gone, tickets[k := tickets[k].(stage := GivenUp)], base)
  {
  }

  lemma {:induction false} PassOnKeeps(c: State)
    requires Inv(c) && c.registering.None? && c.inbox != []
    ensures Inv(c.(inbox := c.inbox[1..]))
    ensures Inv(c.(inbox := c.inbox[1..], process := c.process + [c.inbox[0]]))
  {
    hide NthId, Counter;
    assert c.tickets[c.inbox[0].ticket].stage != Registering;
  }

  lemma {:induction false} ReceiveKeeps(c: State, full: bool)
    requires Inv(c)
    ensures Inv(DoReceive(c, full))
  {
    hide Inv;
    if c.registering.None? && c.inbox != [] {
      var r := c.inbox[0];
      PassOnKeeps(c);
      LoopKeeps(c.(inbox := c.inbox[1..]), Down, c.subscribing);
      LoopKeeps(c.(inbox := c.inbox[1..], process := c.process + [r]), c.phase, c.subscribes);
    }
  }

  lemma {:induction false} LoopKeeps(c: State, phase: Phase, subscribing: seq<Command>)
    requires Inv(c)
    ensures Inv(c.(phase := phase, subscribing := subscribing))
  {
    hide NthId, Counter;
  }

  lemma {:induction false} AnswerKeeps(c: State, r: Reply, w: nat)
    requires Inv(c) && c.process != [] && r == c.process[0] && r.id in c.pending
    requires w == c.pending[r.id] == r.ticket && w !in c.gone
    ensures Inv(SetStage(c.(process := c.process[1..]), w, Answered).(
      pending := c.pending - {r.id}, answered := c.answered + [(w, r)]))
  {
    hide NthId, Counter;
    var d := SetStage(c.(process := c.process[1..]), w, Answered).(
      pending := c.pending - {r.id}, answered := c.answered + [(w, r)]);
    assert AnswersRight(d.answered, d.tickets);
  }

  lemma {:induction false} DropReplyKeeps(c: State, connected: nat, passed: seq<Reply>)
    requires Inv(c) && c.process != []
    ensures Inv(c.(process := c.process[1..], connected := connected))
    ensures Inv(c.(process := c.process[1..], passed := passed))
  {
    hide NthId, Counter;
  }

  /** Removing the entry of a caller that is gone takes nothing from anyone who waits. */
  lemma {:induction false} RemoveGoneKeeps(c: State, id: u32)
    requires Inv(c) && id in c.pending && c.pending[id] in c.gone
    ensures Inv(c.(pending := c.pending - {id}))
  {
    hide NthId, Counter;
    assert forall k :: 0 <= k < |c.tickets| && c.tickets[k].stage == Waiting && k !in c.gone ==> c.tickets[k].id != id;
  }

  /** A looked-up caller that still waits is the one whose request the reply answers. */
  lemma {:induction false} LookupIsRight(c: State)
    requires Inv(c) && c.process != [] && c.process[0].id in c.pending && c.pending[c.process[0].id] !in c.gone
    ensures c.pending[c.process[0].id] == c.process[0].ticket
  {
    hide NthId, Counter;
    OneTicketPerId(c, c.process[0].ticket, c.pending[c.process[0].id]);
  }

  lemma {:induction false} ProcessKeeps(c: State)
    requires Inv(c)
    ensures Inv(DoProcess(c))
  {
    hide Inv;
    if c.process != [] {
      var r := c.process[0];
      DropReplyKeeps(c, c.connected + 1, c.passed + [r]);
      if r.id in c.pending {
        PendingKnown(c, r.id);
        if c.pending[r.id] in c.gone {
          RemoveGoneKeeps(c, r.id);
          DropReplyKeeps(c.(pending := c.pending - {r.id}), c.connected, c.passed);
        } else {
          LookupIsRight(c);
          AnswerKeeps(c, r, c.pending[r.id]);
        }
      }
    }
  }

  lemma {:induction false} PendingKnown(c: State, id: u32)
    requires Inv(c) && id in c.pending
    ensures c.pending[id] < |c.tickets|
  {
  }

  lemma {:induction false} ExpireKeeps(c: State, k: nat)
    requires Inv(c)
    ensures Inv(DoExpire(c, k))
  {
    hide NthId, Counter;
  }

  lemma {:induction false} AbandonKeeps(c: State, k: nat)
    requires Inv(c) && HasStage(c, k, Held)
    ensures Inv(SetStage(c, k, GivenUp))
  {
    hide NthId, Counter;
  }

  lemma {:induction false} PeerKeeps(c: State, k: nat, ok: bool)
    requires Inv(c)
    ensures Inv(DoPeerReplies(c, k, ok))
  {
    hide NthId, Counter;
  }

  lemma {:induction false} ReconnectKeeps(c: State)
    requires Inv(c) && (CanReconnect(c) ==> Quiet(c))
    ensures Inv(DoReconnect(c))
  {
    hide NthId;
  }

  lemma {:induction false} StepKeeps(c: State, step: Step)
    requires Inv(c) && Allowed(c, step)
    ensures Inv(Do(c, step))
  {
    hide Inv, RequestIdTrim, DoEnqueue, DoForward, DoRegister, DoReceive, DoProcess, DoExpire, Quiet, DoPeerReplies;
    match step
    case Call(cmd) => if cmd !in {Heartbeat, Auth} { AllocateKeeps(c, cmd, Held); }
    case Enqueue(k) => EnqueueKeeps(c, k);
    case Abandon(k) => if HasStage(c, k, Held) { AbandonKeeps(c, k); }
    case Expire(k) => ExpireKeeps(c, k);
    case Connect =>
      if c.phase == Starting {
        InternalKeeps(c, Auth, AuthRequest);
        LoopKeeps(SendInternal(c, Auth, AuthRequest), Up, c.subscribing);
      }
    case Beat => if c.phase == Up && Idle(c) { InternalKeeps(c, Heartbeat, Ping); }
    case Forward(ok) => ForwardKeeps(c, ok);
    case Register(timely) => RegisterKeeps(c, timely);
    case Receive(full) => ReceiveKeeps(c, full);
    case Subscribe => SubscribeKeeps(c);
    case Reconnect => ReconnectKeeps(c);
    case Process => ProcessKeeps(c);
    case PeerReplies(k, ok) => PeerKeeps(c, k, ok);
  }

  lemma {:induction false} RunKeeps(c: State, steps: seq<Step>)
    requires Inv(c) && AllAllowed(c, steps)
    ensures Inv(Run(c, steps))
  {
    hide Inv, Do, Allowed;
    if steps != [] {
      RunKeeps(c, steps[..|steps| - 1]);
      StepKeeps(Run(c, steps[..|steps| - 1]), steps[|steps| - 1]);
    }
  }

  lemma {:induction false} StartKeeps(subscribes: seq<Command>, room: nat)
    ensures Inv(Start(subscribes, room))
  {
  }

  // ----- the theorems -----

  /**
   * Over every interleaving of calls, data loop, processing task and peer: each response a waiter got answers that
   * waiter's own request, never an auth, heartbeat or subscribe request, and no waiter was answered twice.
   */
  lemma {:induction false} MatchingIsRight(subscribes: seq<Command>, room: nat, steps: seq<Step>)
    requires AllAllowed(Start(subscribes, room), steps)
    ensures var c := Run(Start(subscribes, room), steps);
      && (forall i :: 0 <= i < |c.answered| ==>
            var (waiter, reply) := c.answered[i];
            reply.ticket == waiter && HasStage(c, waiter, Answered) && !HasStage(c, reply.ticket, Internal)
            && reply.id == c.tickets[waiter].id)
      && (forall i, j :: 0 <= i < j < |c.answered| ==> c.answered[i].0 != c.answered[j].0)
  {
    hide Ids, Outgoing, Incoming, PendingExact, Run, AllAllowed;
    StartKeeps(subscribes, room);
    RunKeeps(Start(subscribes, room), steps);
  }

  /**
   * Register before lookup: whenever a response is about to be looked up, its request has left the data loop. The
   * lookup finds exactly its caller if that one is registered and still waits, and otherwise nobody who waits.
   */
  lemma {:induction false} RegisteredBeforeLookup(subscribes: seq<Command>, room: nat, steps: seq<Step>)
    requires AllAllowed(Start(subscribes, room), steps)
    ensures var c := Run(Start(subscribes, room), steps);
      c.process != [] ==>
        var r := c.process[0];
        && Registered(c.tickets, r.ticket)
        && (HasStage(c, r.ticket, Waiting) && r.ticket !in c.gone <==>
              r.id in c.pending && c.pending[r.id] !in c.gone)
        && (r.id in c.pending && c.pending[r.id] !in c.gone ==> c.pending[r.id] == r.ticket)
  {
    hide Ids, Outgoing, AnswersRight, Run, AllAllowed;
    StartKeeps(subscribes, room);
    RunKeeps(Start(subscribes, room), steps);
    var c := Run(Start(subscribes, room), steps);
    if c.process != [] && c.process[0].id in c.pending && c.pending[c.process[0].id] !in c.gone { LookupIsRight(c); }
  }
}
