/** What the server's tasks send each other, over every run, read off the steps taken. */
module ServerTrace {
  import opened Server

  /** The steps, noted down. */
  datatype Log = Log(
    addrs: seq<nat>,                         // the connections accepted
    attempts: seq<seq<(string, bool)>>,      // their auth requests, and what on_auth returned
    signals: seq<Signal>,                    // what was sent to the manager
    settled: nat,                            // how much of it was processed
    exits: seq<nat>,                         // the connections told to exit
    kicked: set<Name>,                       // names closed, and not announced since
    rosters: seq<map<Name, nat>>)            // the map at every broadcast

  const EMPTY_LOG: Log := Log([], [], [], 0, [], {}, [])

  /** The name a connection goes by: that of its last auth request, accepted or not. */
  function Told(l: Log, c: nat): Name
    requires c < |l.addrs| && c < |l.attempts|
  {
    var tried := l.attempts[c];
    Name(if tried == [] then "waitAuth" else tried[|tried| - 1].0, l.addrs[c])
  }

  predicate Knows(l: Log, c: nat) {
    c < |l.addrs| && c < |l.attempts|
  }

  /** Notes one step, from the state before it. */
  function Note(l: Log, s: State, step: Step): Log {
    match step
    case Accept(addr) => l.(addrs := l.addrs + [addr], attempts := l.attempts + [[]])
    case Auth(c, client, ok) =>
      if InPhase(s, c, Live) && Knows(l, c)
      then l.(attempts := l.attempts[c := l.attempts[c] + [(client, ok)]]) else l
    case Announce(c) =>
      if InPhase(s, c, Announcing) && Knows(l, c)
      then l.(signals := l.signals + [New(Told(l, c), c)], kicked := l.kicked - {Told(l, c)}) else l
    case SendExit(c) =>
      if InPhase(s, c, Leaving) && Knows(l, c) then l.(signals := l.signals + [Exit(Told(l, c))]) else l
    case Manage => if s.signals != [] then l.(settled := l.settled + 1) else l
    case CloseClient(name) =>
      if name !in s.clients then l else
      l.(exits := l.exits + [s.clients[name]],
         kicked := if NewWaits(s.signals, name) then l.kicked else l.kicked + {name})
    case Broadcast => l.(rosters := l.rosters + [s.clients])
    case _ => l
  }

  function LogOf(s: State, steps: seq<Step>): Log {
    if steps == [] then EMPTY_LOG else
    var before := steps[..|steps| - 1];
    Note(LogOf(s, before), Run(s, before), steps[|steps| - 1])
  }

  ghost predicate ConnsRight(conns: seq<Conn>, l: Log) {
    && |conns| == |l.addrs| == |l.attempts|
    && forall c :: 0 <= c < |conns| ==>
         conns[c].addr == l.addrs[c] && conns[c].attempts == l.attempts[c] && conns[c].name == Told(l, c)
  }

  /** Every connection has the address, auth requests and name that the steps say, and every channel what they sent. */
  ghost predicate TraceRight(s: State, l: Log) {
    && ConnsRight(s.conns, l)
    && s.sent == l.signals && l.settled <= |l.signals| && s.signals == l.signals[l.settled..]
    && s.exits == l.exits && s.kicked == l.kicked && s.rosters == l.rosters
  }

  lemma {:induction false} ConnsKeep(s: State, l: Log, step: Step)
    requires ConnsRight(s.conns, l)
    ensures ConnsRight(Do(s, step).conns, Note(l, s, step))
  {
    hide NamesOf, PushCopies, Settle, NewWaits;
  }

  lemma {:induction false} NameIsTold(s: State, l: Log)
    requires ConnsRight(s.conns, l)
    ensures forall c :: 0 <= c < |s.conns| ==> Knows(l, c) && s.conns[c].name == Told(l, c)
  {
  }

  lemma {:induction false} NoteKeeps(s: State, l: Log, step: Step)
    requires TraceRight(s, l)
    ensures TraceRight(Do(s, step), Note(l, s, step))
  {
    hide NamesOf, PushCopies, BroadcastTo, Settle, NewWaits, ConnsRight, Told;
    ConnsKeep(s, l, step);
    NameIsTold(s, l);
  }

  /** Over every run: names, signals in order, exits and maps broadcast to are what the steps taken say. */
  lemma {:induction false} TraceIsRight(capacity: nat, steps: seq<Step>)
    ensures TraceRight(Run(Start(capacity), steps), LogOf(Start(capacity), steps))
  {
    hide Do, Note;
    if steps != [] {
      hide TraceRight;
      var before := steps[..|steps| - 1];
      TraceIsRight(capacity, before);
      NoteKeeps(Run(Start(capacity), before), LogOf(Start(capacity), before), steps[|steps| - 1]);
    }
  }
}
