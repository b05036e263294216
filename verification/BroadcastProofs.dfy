/** What one client's on_send sees of the packets the manager broadcasts. */
module BroadcastProofs {
  import opened Server
  import opened ServerProofs

  ghost predicate Increasing(q: seq<nat>) {
    forall i, j :: 0 <= i < j < |q| ==> q[i] < q[j]
  }

  ghost predicate NonDecreasing(q: seq<nat>) {
    forall i, j :: 0 <= i < j < |q| ==> q[i] <= q[j]
  }

  /** The packets broadcast while connection `c` was in the map, in order, each as often as it was listed. */
  function Expected(rosters: seq<map<Name, nat>>, c: nat): seq<nat> {
    if rosters == [] then [] else
    var last := |rosters| - 1;
    Expected(rosters[..last], c) + Repeat(last, |NamesOf(rosters[last], c)|)
  }

  function Repeat(p: nat, n: nat): (r: seq<nat>)
    ensures |r| == n && forall i :: 0 <= i < n ==> r[i] == p
  {
    seq(n, _ => p)
  }

  /** No broadcast found the connection under two names. */
  ghost predicate OnceListed(rosters: seq<map<Name, nat>>, c: nat) {
    forall k :: 0 <= k < |rosters| ==> |NamesOf(rosters[k], c)| <= 1
  }

  /** Handed over, then still queued. */
  function Flow(ch: Channel): seq<nat> {
    ch.handed + ch.queue
  }

  ghost predicate FlowOk(ch: Channel, rosters: seq<map<Name, nat>>, c: nat) {
    && (forall x :: x in Flow(ch) ==> x in ch.pushed)
    && (!ch.listening ==> ch.queue == [])
    && |ch.queue| <= ch.capacity
    && (ch.listening ==> QueueIsNewest(ch))
    && (forall x :: x in ch.pushed ==> x < |rosters| && NamesOf(rosters[x], c) != {})
    && NonDecreasing(Flow(ch))
    && (OnceListed(rosters, c) ==> Increasing(Flow(ch)))
    && (ch.lagged ==> ch.everLagged)
    && (ch.listening && !ch.everLagged ==> Flow(ch) == ch.pushed)
    && (ch.listening ==> ch.pushed == Expected(rosters, c))
  }

  /** The queue is the end of what was pushed; something was lost exactly if a lag was or will be counted. */
  ghost predicate QueueIsNewest(ch: Channel) {
    && |ch.handed| + |ch.queue| <= |ch.pushed| && ch.queue == ch.pushed[|ch.pushed| - |ch.queue|..]
    && (ch.everLagged <==> |ch.handed| + |ch.queue| < |ch.pushed|)
    && (ch.everLagged <==> ch.lagged || ch.reports > 0)
  }

  ghost predicate FlowInv(s: State) {
    && (forall c :: 0 <= c < |s.conns| ==> FlowOk(s.conns[c].chan, s.rosters, c))
    && (forall k, n :: 0 <= k < |s.rosters| && n in s.rosters[k] ==> Announced(s, n, s.rosters[k][n]))
  }

  // ----- one channel -----

  lemma {:induction false} PushFlow(ch: Channel, p: nat)
    ensures var d := Push(ch, p);
      && d.listening == ch.listening
      && (!ch.listening ==> d == ch)
      && (ch.listening ==> d.pushed == ch.pushed + [p])
      && (ch.listening && |ch.queue| < ch.capacity ==>
            Flow(d) == Flow(ch) + [p] && d.lagged == ch.lagged && d.everLagged == ch.everLagged)
      && (ch.listening && |ch.queue| >= ch.capacity ==> Flow(d) == ch.handed + (ch.queue + [p])[1..] && d.everLagged)
  {
    if ch.listening && |ch.queue| < ch.capacity {
      assert ch.handed + (ch.queue + [p]) == (ch.handed + ch.queue) + [p];
    }
  }

  lemma {:induction false} CopiesPushed(ch: Channel, p: nat, copies: nat)
    ensures var d := PushCopies(ch, p, copies);
      && d.listening == ch.listening
      && d.pushed == (if ch.listening then ch.pushed + Repeat(p, copies) else ch.pushed)
  {
    if copies > 0 {
      CopiesPushed(ch, p, copies - 1);
      assert Repeat(p, copies) == Repeat(p, copies - 1) + [p];
    } else {
      assert ch.pushed + Repeat(p, 0) == ch.pushed;
    }
  }

  lemma {:induction false} PushKeepsNewest(ch: Channel, p: nat)
    requires |ch.queue| <= ch.capacity && (ch.listening ==> QueueIsNewest(ch))
    ensures var d := Push(ch, p);
      d.capacity == ch.capacity && |d.queue| <= d.capacity && (d.listening ==> QueueIsNewest(d))
  {
    if ch.listening {
      var more, all, d := ch.queue + [p], ch.pushed + [p], Push(ch, p);
      assert more == all[|all| - |more|..];
      assert more[1..] == all[|all| - |more| + 1..];
      assert d.pushed == all;
    }
  }

  /** However many copies are pushed, the queue stays the newest part, and a loss is a lag. */
  lemma {:induction false} CopiesKeepNewest(ch: Channel, p: nat, copies: nat)
    requires |ch.queue| <= ch.capacity && (ch.listening ==> QueueIsNewest(ch)) && (!ch.listening ==> ch.queue == [])
    ensures var d := PushCopies(ch, p, copies);
      && d.capacity == ch.capacity && |d.queue| <= d.capacity && d.listening == ch.listening
      && (d.listening ==> QueueIsNewest(d)) && (!d.listening ==> d.queue == [])
  {
    hide QueueIsNewest;
    if copies > 0 {
      CopiesKeepNewest(ch, p, copies - 1);
      PushKeepsNewest(PushCopies(ch, p, copies - 1), p);
    }
  }

  lemma {:induction false} AppendOrders(q: seq<nat>, p: nat)
    ensures NonDecreasing(q) && (forall x :: x in q ==> x <= p) ==> NonDecreasing(q + [p])
    ensures Increasing(q) && (forall x :: x in q ==> x < p) ==> Increasing(q + [p])
  {
    assert forall i :: 0 <= i < |q| ==> q[i] in q;
  }

  lemma {:induction false} RemoveOrders(q: seq<nat>, cut: nat)
    requires cut < |q|
    ensures var r := q[..cut] + q[cut + 1..];
      && (NonDecreasing(q) ==> NonDecreasing(r)) && (Increasing(q) ==> Increasing(r))
      && forall x :: x in r ==> x in q
  {
    var r := q[..cut] + q[cut + 1..];
    assert forall i :: 0 <= i < |r| ==> r[i] == q[if i < cut then i else i + 1];
  }

  /** Pushing a packet newer than all before it keeps a flow ordered, whether or not the oldest is lost; it is noted. */
  lemma {:induction false} PushOrders(ch: Channel, p: nat)
    requires NonDecreasing(Flow(ch)) && forall x :: x in Flow(ch) ==> x <= p
    ensures NonDecreasing(Flow(Push(ch, p)))
    ensures Increasing(Flow(ch)) && (forall x :: x in Flow(ch) ==> x < p) ==> Increasing(Flow(Push(ch, p)))
    ensures forall x :: x in Flow(Push(ch, p)) ==> x in Flow(ch) || (x == p && ch.listening)
    ensures Push(ch, p).lagged <==> ch.lagged || (ch.listening && |ch.queue| >= ch.capacity)
  {
    hide Increasing, NonDecreasing;
    if ch.listening {
      var all := Flow(ch) + [p];
      AppendOrders(Flow(ch), p);
      if |ch.queue| < ch.capacity {
        assert Flow(Push(ch, p)) == all;
      } else {
        RemoveOrders(all, |ch.handed|);
        assert Flow(Push(ch, p)) == all[..|ch.handed|] + all[|ch.handed| + 1..];
      }
    }
  }

  lemma {:induction false} CopiesFlow(ch: Channel, p: nat, copies: nat)
    requires NonDecreasing(Flow(ch)) && forall x :: x in Flow(ch) ==> x in ch.pushed && x < p
    requires ch.lagged ==> ch.everLagged
    requires ch.listening && !ch.everLagged ==> Flow(ch) == ch.pushed
    ensures var d := PushCopies(ch, p, copies);
      && NonDecreasing(Flow(d))
      && (Increasing(Flow(ch)) && copies <= 1 ==> Increasing(Flow(d)))
      && d.listening == ch.listening && (d.lagged ==> d.everLagged)
      && (forall x :: x in Flow(d) ==> x in d.pushed && x <= p)
      && d.pushed == (if ch.listening then ch.pushed + Repeat(p, copies) else ch.pushed)
      && (d.listening && !d.everLagged ==> Flow(d) == d.pushed)
  {
    hide NonDecreasing, Increasing;
    if copies > 0 {
      CopiesFlow(ch, p, copies - 1);
      var e := PushCopies(ch, p, copies - 1);
      PushOrders(e, p);
      PushFlow(e, p);
    }
    CopiesPushed(ch, p, copies);
  }

  /** One broadcast keeps the flow of every connection as it should be, however often the connection is listed. */
  lemma {:induction false} CopiesKeepFlow(ch: Channel, rosters: seq<map<Name, nat>>, roster: map<Name, nat>, c: nat)
    requires FlowOk(ch, rosters, c)
    ensures FlowOk(PushCopies(ch, |rosters|, |NamesOf(roster, c)|), rosters + [roster], c)
  {
    hide Increasing, NonDecreasing, NamesOf;
    var more, p, copies := rosters + [roster], |rosters|, |NamesOf(roster, c)|;
    assert more[..p] == rosters && more[p] == roster;
    assert forall x :: 0 <= x < p ==> more[x] == rosters[x];
    assert OnceListed(more, c) ==> OnceListed(rosters, c) && copies <= 1;
    CopiesFlow(ch, p, copies);
    CopiesKeepNewest(ch, p, copies);
    var d := PushCopies(ch, p, copies);
    forall x | x in d.pushed ensures x < |more| && NamesOf(more[x], c) != {} {
      if x !in ch.pushed { assert x in Repeat(p, copies); }
    }
  }

  // ----- every run -----

  lemma {:induction false} ExpectedOfNewcomer(rosters: seq<map<Name, nat>>, c: nat)
    requires forall k, n :: 0 <= k < |rosters| && n in rosters[k] ==> rosters[k][n] != c
    ensures Expected(rosters, c) == []
  {
    if rosters != [] {
      ExpectedOfNewcomer(rosters[..|rosters| - 1], c);
      assert NamesOf(rosters[|rosters| - 1], c) == {};
    }
  }

  lemma {:induction false} BroadcastKeepsFlow(s: State)
    requires Members(s) && FlowInv(s)
    ensures FlowInv(Do(s, Broadcast))
  {
    hide ConnOk, FlowOk, PushCopies, NamesOf;
    var t := Do(s, Broadcast);
    forall c | 0 <= c < |s.conns| ensures FlowOk(t.conns[c].chan, t.rosters, c) {
      CopiesKeepFlow(s.conns[c].chan, s.rosters, s.clients, c);
    }
    AnnouncedMonotone(s, t);
  }

  /** Everything but a broadcast leaves a connection's flow as it is, or moves one packet along it. */
  lemma {:induction false} ChannelStepKeepsFlow(ch: Channel, d: Channel, rosters: seq<map<Name, nat>>, c: nat)
    requires FlowOk(ch, rosters, c)
    requires d == ch || d == OnSendTurn(ch) || d == ch.(listening := false, queue := [])
    ensures FlowOk(d, rosters, c)
  {
    hide FlowOk, OnSendTurn;
    if d == OnSendTurn(ch) {
      TurnKeepsFlow(ch, rosters, c);
    } else if d != ch {
      HangupKeepsFlow(ch, rosters, c);
    }
  }

  lemma {:induction false} TurnKeepsFlow(ch: Channel, rosters: seq<map<Name, nat>>, c: nat)
    requires FlowOk(ch, rosters, c)
    ensures FlowOk(OnSendTurn(ch), rosters, c)
  {
    hide Expected, OnceListed, NamesOf, Increasing, NonDecreasing, Flow;
    OnSendKeepsFlow(ch);
    TurnKeepsNewest(ch);
    hide QueueIsNewest;
  }

  lemma {:induction false} TurnKeepsNewest(ch: Channel)
    requires |ch.queue| <= ch.capacity && (ch.listening ==> QueueIsNewest(ch))
    ensures var d := OnSendTurn(ch);
      && d.capacity == ch.capacity && |d.queue| <= d.capacity && (d.listening ==> QueueIsNewest(d))
      && (ch.queue == [] ==> d.queue == []) && (d.lagged ==> ch.lagged)
  {
  }

  lemma {:induction false} HangupKeepsFlow(ch: Channel, rosters: seq<map<Name, nat>>, c: nat)
    requires FlowOk(ch, rosters, c)
    ensures FlowOk(ch.(listening := false, queue := []), rosters, c)
  {
    hide Expected, OnceListed, NamesOf, QueueIsNewest;
    var d := ch.(listening := false, queue := []);
    assert Flow(d) == ch.handed;
    assert forall i :: 0 <= i < |ch.handed| ==> Flow(ch)[i] == ch.handed[i];
  }

  lemma {:induction false} OnSendKeepsFlow(ch: Channel)
    ensures Flow(OnSendTurn(ch)) == Flow(ch)
  {
    if !ch.lagged && ch.queue != [] {
      assert ch.queue == [ch.queue[0]] + ch.queue[1..];
    }
  }

  lemma {:induction false} StepKeepsFlow(s: State, step: Step)
    requires Members(s) && FlowInv(s)
    ensures FlowInv(Do(s, step))
  {
    hide Members, FlowOk, OnSendTurn, Settle, NamesOf, NewWaits, BroadcastTo, Expected;
    var t := Do(s, step);
    match step
    case Broadcast => BroadcastKeepsFlow(s);
    case Accept(addr) =>
      ExpectedOfNewcomer(s.rosters, |s.conns|);
      NewcomerFlow(t.conns[|s.conns|].chan, s.rosters, |s.conns|);
      assert forall c :: 0 <= c < |s.conns| ==> t.conns[c] == s.conns[c];
    case _ => OtherStepKeepsFlow(s, t);
  }

  lemma {:induction false} OtherStepKeepsFlow(s: State, t: State)
    requires FlowInv(s) && t.rosters == s.rosters && |t.conns| == |s.conns|
    requires forall c :: 0 <= c < |s.conns| ==>
      var ch, d := s.conns[c].chan, t.conns[c].chan;
      && s.conns[c].announced <= t.conns[c].announced
      && (d == ch || d == OnSendTurn(ch) || d == ch.(listening := false, queue := []))
    ensures FlowInv(t)
  {
    hide FlowOk, OnSendTurn;
    forall c | 0 <= c < |s.conns| ensures FlowOk(t.conns[c].chan, t.rosters, c) {
      ChannelStepKeepsFlow(s.conns[c].chan, t.conns[c].chan, s.rosters, c);
    }
    AnnouncedMonotone(s, t);
  }

  lemma {:induction false} NewcomerFlow(ch: Channel, rosters: seq<map<Name, nat>>, c: nat)
    requires ch == NewChannel(ch.capacity) && Expected(rosters, c) == []
    ensures FlowOk(ch, rosters, c)
  {
    hide Expected;
  }

  lemma {:induction false} RunKeepsFlow(capacity: nat, steps: seq<Step>)
    ensures FlowInv(Run(Start(capacity), steps))
  {
    hide Do;
    if steps != [] {
      hide FlowInv;
      RunKeepsFlow(capacity, steps[..|steps| - 1]);
      RunKeeps(capacity, steps[..|steps| - 1]);
      StepKeepsFlow(Run(Start(capacity), steps[..|steps| - 1]), steps[|steps| - 1]);
    }
  }

  /**
   * What on_send saw, in every run: only packets broadcast while the client was in the map, in broadcast order. If no
   * broadcast found the client under two names, none is seen twice. While the callback loop is there, the queue is the
   * newest part, and a lag says that something was lost. If it never lagged, what was seen and what is queued are the
   * whole run of them, each as often as the client was listed.
   */
  lemma {:induction false} OnSendInOrder(capacity: nat, steps: seq<Step>, c: nat)
    ensures var s := Run(Start(capacity), steps);
      c < |s.conns| ==>
        var ch := s.conns[c].chan;
        && (forall i :: 0 <= i < |ch.handed| ==>
              ch.handed[i] < |s.rosters| && NamesOf(s.rosters[ch.handed[i]], c) != {})
        && NonDecreasing(ch.handed)
        && (OnceListed(s.rosters, c) ==> Increasing(ch.handed))
        && (ch.listening ==> QueueIsNewest(ch))
        && (ch.listening && !ch.everLagged ==> ch.handed + ch.queue == Expected(s.rosters, c))
  {
    hide Run, Expected, NamesOf, OnceListed, QueueIsNewest;
    RunKeepsFlow(capacity, steps);
    var s := Run(Start(capacity), steps);
    if c < |s.conns| {
      var ch := s.conns[c].chan;
      assert FlowOk(ch, s.rosters, c);
      assert forall i :: 0 <= i < |ch.handed| ==> ch.handed[i] == Flow(ch)[i] && Flow(ch)[i] in Flow(ch);
    }
  }

  // ----- draining the callback loop -----

  /** `n` turns of the callback loop of one connection. */
  function OnSends(c: nat, n: nat): (steps: seq<Step>)
    ensures |steps| == n && forall i :: 0 <= i < n ==> steps[i] == OnSend(c)
  {
    seq(n, _ => OnSend(c))
  }

  /** The first turn after a lag only reports it; every other turn hands over the oldest packet. */
  function AfterTurns(ch: Channel, n: nat): Channel
    requires n <= |ch.queue| + (if ch.lagged then 1 else 0)
  {
    var m := if ch.lagged && n > 0 then n - 1 else n;
    ch.(lagged := ch.lagged && n == 0, reports := ch.reports + (if ch.lagged && n > 0 then 1 else 0),
        handed := ch.handed + ch.queue[..m], queue := ch.queue[m..])
  }

  lemma {:induction false} TakeNext(handed: seq<nat>, queue: seq<nat>, m: nat)
    requires m < |queue|
    ensures queue[m..] != [] && queue[m..][1..] == queue[m + 1..]
    ensures handed + queue[..m] + [queue[m..][0]] == handed + queue[..m + 1]
  {
  }

  lemma {:induction false} OneMoreTurn(ch: Channel, n: nat)
    requires 0 < n <= |ch.queue| + (if ch.lagged then 1 else 0)
    ensures OnSendTurn(AfterTurns(ch, n - 1)) == AfterTurns(ch, n)
  {
    if ch.lagged && n == 1 {
      NoTurns(ch);
      assert ch.handed + ch.queue[..0] == ch.handed && ch.queue[0..] == ch.queue;
    } else {
      TakeNext(ch.handed, ch.queue, if ch.lagged then n - 2 else n - 1);
    }
  }

  lemma {:induction false} TurnsHandOver(s: State, c: nat, n: nat)
    requires c < |s.conns|
    requires n <= |s.conns[c].chan.queue| + (if s.conns[c].chan.lagged then 1 else 0)
    ensures var t := Run(s, OnSends(c, n));
      |t.conns| == |s.conns| && t.rosters == s.rosters && t.conns[c].chan == AfterTurns(s.conns[c].chan, n)
  {
    hide AfterTurns, OnSendTurn;
    var ch := s.conns[c].chan;
    if n == 0 {
      NoTurns(ch);
    } else {
      TurnsHandOver(s, c, n - 1);
      OneMoreTurn(ch, n);
      assert OnSends(c, n)[..n - 1] == OnSends(c, n - 1);
    }
  }

  lemma {:induction false} NoTurns(ch: Channel)
    ensures AfterTurns(ch, 0) == ch
  {
    assert ch.handed + ch.queue[..0] == ch.handed && ch.queue[0..] == ch.queue;
  }

  lemma {:induction false} RunAppend(s: State, a: seq<Step>, b: seq<Step>)
    ensures Run(s, a + b) == Run(Run(s, a), b)
  {
    hide Do;
    if b == [] {
      assert a + b == a;
    } else {
      RunAppend(s, a, b[..|b| - 1]);
      assert (a + b)[..|a + b| - 1] == a + b[..|b| - 1];
    }
  }

  /**
   * Drained, in every run: as many turns of the callback loop as there are queued packets, and one more after a lag,
   * hand over everything queued. Without lag on_send then got all packets broadcast while the client was listed.
   */
  lemma {:induction false} DrainedHandsAll(capacity: nat, steps: seq<Step>, c: nat)
    requires c < |Run(Start(capacity), steps).conns|
    ensures var s := Run(Start(capacity), steps); var ch := s.conns[c].chan;
      var t := Run(Start(capacity), steps + OnSends(c, |ch.queue| + (if ch.lagged then 1 else 0)));
      && c < |t.conns| && t.conns[c].chan.queue == [] && t.conns[c].chan.handed == ch.handed + ch.queue
      && (ch.listening && !ch.everLagged ==> t.conns[c].chan.handed == Expected(s.rosters, c))
  {
    hide Run, Expected, OnceListed, NamesOf;
    var s := Run(Start(capacity), steps);
    var ch := s.conns[c].chan;
    var n := |ch.queue| + (if ch.lagged then 1 else 0);
    RunAppend(Start(capacity), steps, OnSends(c, n));
    TurnsHandOver(s, c, n);
    OnSendInOrder(capacity, steps, c);
    assert ch.queue[..|ch.queue|] == ch.queue;
  }

  /** Once the callback loop is gone, nothing is queued or handed over any more, whatever else happens. */
  lemma {:induction false} HangupIsFinal(capacity: nat, steps: seq<Step>, c: nat, more: seq<Step>)
    requires c < |Run(Start(capacity), steps).conns|
    ensures var ch, t := Run(Start(capacity), steps).conns[c].chan, Run(Start(capacity), steps + [Hangup(c)] + more);
      c < |t.conns| && t.conns[c].chan.handed == ch.handed && t.conns[c].chan.pushed == ch.pushed
      && t.conns[c].chan.queue == [] && !t.conns[c].chan.listening
  {
    hide Do;
    var all := steps + [Hangup(c)] + more;
    if more == [] {
      assert all == steps + [Hangup(c)];
      RunSnoc(Start(capacity), steps, Hangup(c));
      HangupHere(Run(Start(capacity), steps), c);
    } else {
      var before := steps + [Hangup(c)] + more[..|more| - 1];
      HangupIsFinal(capacity, steps, c, more[..|more| - 1]);
      assert all[..|all| - 1] == before;
      DeafStep(Run(Start(capacity), before), c, more[|more| - 1]);
    }
  }

  lemma {:induction false} HangupHere(s: State, c: nat)
    requires c < |s.conns|
    ensures var ch, t := s.conns[c].chan, Do(s, Hangup(c));
      c < |t.conns| && t.conns[c].chan.handed == ch.handed && t.conns[c].chan.pushed == ch.pushed
      && t.conns[c].chan.queue == [] && !t.conns[c].chan.listening
  {
  }

  lemma {:induction false} DeafStep(s: State, c: nat, step: Step)
    requires c < |s.conns| && !s.conns[c].chan.listening && s.conns[c].chan.queue == []
    ensures var ch, t := s.conns[c].chan, Do(s, step);
      c < |t.conns| && t.conns[c].chan.handed == ch.handed && t.conns[c].chan.pushed == ch.pushed
      && t.conns[c].chan.queue == [] && !t.conns[c].chan.listening
  {
    hide NamesOf, Settle, NewWaits;
    DeafCopies(s.conns[c].chan, |s.rosters|, |NamesOf(s.clients, c)|);
  }

  lemma {:induction false} DeafCopies(ch: Channel, p: nat, copies: nat)
    requires !ch.listening
    ensures PushCopies(ch, p, copies) == ch
  {
    if copies > 0 { DeafCopies(ch, p, copies - 1); }
  }

  // ----- never twice -----

  lemma {:induction false} ExpectedOnceIff(rosters: seq<map<Name, nat>>, c: nat)
    ensures forall x :: x in Expected(rosters, c) ==> x < |rosters|
    ensures Increasing(Expected(rosters, c)) <==> OnceListed(rosters, c)
  {
    hide NamesOf;
    if rosters != [] {
      var last, before := |rosters| - 1, rosters[..|rosters| - 1];
      ExpectedOnceIff(before, c);
      var e, copies := Expected(before, c), |NamesOf(rosters[last], c)|;
      var all := e + Repeat(last, copies);
      assert Expected(rosters, c) == all;
      assert forall k :: 0 <= k < last ==> before[k] == rosters[k];
      assert forall i :: 0 <= i < |e| ==> all[i] == e[i] && e[i] in e;
      if copies >= 2 { assert all[|e|] == all[|e| + 1] == last; }
      if OnceListed(before, c) && copies <= 1 {
        assert forall i, j :: 0 <= i < j < |all| ==> all[i] < all[j];
      }
      assert OnceListed(rosters, c) <==> OnceListed(before, c) && copies <= 1;
    }
  }

  /**
   * Never twice, exactly: while the callback loop is there, the manager pushed no packet twice to a client if and only
   * if no broadcast found it under two names. Without lag that is what on_send saw and will see.
   */
  lemma {:induction false} NeverTwiceIff(capacity: nat, steps: seq<Step>, c: nat)
    ensures var s := Run(Start(capacity), steps);
      c < |s.conns| && s.conns[c].chan.listening ==>
        var ch := s.conns[c].chan;
        && (Increasing(ch.pushed) <==> OnceListed(s.rosters, c))
        && (!ch.everLagged ==> (Increasing(ch.handed + ch.queue) <==> OnceListed(s.rosters, c)))
  {
    hide Run, Increasing, Expected, OnceListed;
    RunKeepsFlow(capacity, steps);
    ExpectedOnceIff(Run(Start(capacity), steps).rosters, c);
  }

  /** A client that announced one name is never listed under two. */
  lemma {:induction false} OneNameIsOnceListed(capacity: nat, steps: seq<Step>, n: Name, c: nat)
    requires var s := Run(Start(capacity), steps); c < |s.conns| && s.conns[c].announced <= {n}
    ensures OnceListed(Run(Start(capacity), steps).rosters, c)
  {
    hide Run, FlowOk;
    RunKeepsFlow(capacity, steps);
    var rosters := Run(Start(capacity), steps).rosters;
    forall k | 0 <= k < |rosters| ensures |NamesOf(rosters[k], c)| <= 1 {
      var names := NamesOf(rosters[k], c);
      assert names <= {n};
      assert names == {} || names == {n};
    }
  }

  lemma {:induction false} RunNone(s: State)
    ensures Run(s, []) == s
  {
  }

  lemma {:induction false} RunSnoc(s: State, steps: seq<Step>, step: Step)
    ensures Run(s, steps + [step]) == Do(Run(s, steps), step)
  {
    assert (steps + [step])[..|steps|] == steps;
  }

  /** A connection that authenticates under two names is listed under both. */
  lemma {:induction false} TwoNames(capacity: nat, addr: nat, x: string, y: string) returns (steps: seq<Step>)
    requires x != y
    ensures var s := Run(Start(capacity), steps);
      && |s.conns| == 1 && s.conns[0].chan == NewChannel(capacity) && s.rosters == []
      && NamesOf(s.clients, 0) == {Name(x, addr), Name(y, addr)}
  {
    hide Run, BroadcastTo;
    var s0 := Start(capacity);
    RunNone(s0);
    RunSnoc(s0, [], Accept(addr));
    steps := [] + [Accept(addr)];
    RunSnoc(s0, steps, Auth(0, x, true));
    steps := steps + [Auth(0, x, true)];
    RunSnoc(s0, steps, Announce(0));
    steps := steps + [Announce(0)];
    RunSnoc(s0, steps, Auth(0, y, true));
    steps := steps + [Auth(0, y, true)];
    RunSnoc(s0, steps, Announce(0));
    steps := steps + [Announce(0)];
    assert Run(s0, steps).signals == [New(Name(x, addr), 0), New(Name(y, addr), 0)];
    RunSnoc(s0, steps, Manage);
    steps := steps + [Manage];
    RunSnoc(s0, steps, Manage);
    steps := steps + [Manage];
    assert Run(s0, steps).clients == map[Name(x, addr) := 0, Name(y, addr) := 0];
  }

  /** So the condition above does fail: in this run the next packet is queued twice. */
  lemma {:induction false} TwoNamesTwoCopies(capacity: nat, addr: nat, x: string, y: string) returns (steps: seq<Step>)
    requires capacity >= 2 && x != y
    ensures var s := Run(Start(capacity), steps);
      |s.conns| == 1 && s.conns[0].chan.listening && !s.conns[0].chan.everLagged && s.conns[0].chan.queue == [0, 0]
  {
    hide Run, NamesOf;
    var before := TwoNames(capacity, addr, x, y);
    steps := before + [Broadcast];
    RunSnoc(Start(capacity), before, Broadcast);
    var ch := NewChannel(capacity);
    assert PushCopies(ch, 0, 2) == Push(Push(PushCopies(ch, 0, 0), 0), 0);
  }
}
