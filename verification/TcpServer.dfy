/** The life of a server connection across loops: `TcpServer`, `TcpConnection` and `Channel` pass it
    from the base loop to an io loop and back through queued functors
    (source/base/src/TcpServer.cpp, source/base/src/TcpConnection.cpp, source/base/src/Channel.cpp). */
module TcpServers {
  import opened Channels
  import opened ConnectionStates

  type LoopId = nat
  type ConnId = nat

  const BASE: LoopId := 0

  datatype Task = Established(c: ConnId) | RemoveInLoop(c: ConnId) | Destroyed(c: ConnId)

  /** What happens to a connection, as its users and the server see it. */
  datatype Note = Up | Message | Down | Erased | Removed

  datatype Record = Record(loop: LoopId, state: State, registered: bool, interest: bool, log: seq<Note>)

  datatype Report = Report(c: ConnId, revents: bv16)

  /** `connections` is the server's map, `queues` the pending functors of each loop and `active`
      the part of each loop's `activeChannels_` still to be handled. */
  datatype Server = Server(conns: map<ConnId, Record>, connections: set<ConnId>, next: ConnId,
                           queues: map<LoopId, seq<Task>>, active: map<LoopId, seq<Report>>)

  const START := Server(map[], {}, 1, map[], map[])

  function Queue(s: Server, l: LoopId): seq<Task> { if l in s.queues then s.queues[l] else [] }

  function Active(s: Server, l: LoopId): seq<Report> { if l in s.active then s.active[l] else [] }

  // ---- the handlers ----

  function Post(s: Server, l: LoopId, t: Task): Server {
    s.(queues := s.queues[l := Queue(s, l) + [t]])
  }

  function Noted(s: Server, c: ConnId, k: Record, n: Note): Server {
    s.(conns := s.conns[c := k.(log := k.log + [n])])
  }

  function Execute(s: Server, t: Task): Server
    requires t.c in s.conns
  {
    var k := s.conns[t.c];
    match t
    case Established(c) => Noted(s, c, k.(state := Connected, registered := true, interest := true), Up)
    case RemoveInLoop(c) => Post(Noted(s, c, k, Erased).(connections := s.connections - {c}), k.loop, Destroyed(c))
    case Destroyed(c) =>
      var s' := if k.state == Connected then Noted(s, c, k.(state := Disconnected, interest := false), Down) else s;
      Noted(s', c, s'.conns[c].(registered := false), Removed)
  }

  /** `runInLoop` called from loop `here`. */
  function RunInLoop(s: Server, here: LoopId, l: LoopId, t: Task): Server
    requires t.c in s.conns
  {
    if here == l then Execute(s, t) else Post(s, l, t)
  }

  function Close(s: Server, c: ConnId): Server
    requires c in s.conns
  {
    var k := s.conns[c];
    RunInLoop(Noted(s, c, k.(state := Disconnected, interest := false), Down), k.loop, BASE, RemoveInLoop(c))
  }

  datatype ReadResult = Data | Eof | Error

  function Read(s: Server, c: ConnId, r: ReadResult): Server
    requires c in s.conns
  {
    match r
    case Data => Noted(s, c, s.conns[c], Message)
    case Eof => Close(s, c)
    case Error => s
  }

  /** `handleEventWithGuard`: the write handler changes no milestone of the connection. */
  function Dispatch(s: Server, c: ConnId, callbacks: seq<Callback>, r: ReadResult): (s': Server)
    requires c in s.conns
    ensures c in s'.conns
    decreases |callbacks|
  {
    if callbacks == [] then s
    else
      var s' := match callbacks[0]
        case CloseCallback => Close(s, c)
        case ReadCallback => Read(s, c, r)
        case _ => s;
      Dispatch(s', c, callbacks[1..], r)
  }

  // ---- steps ----

  datatype Step =
    | Accept(io: LoopId)
    | RunTask(l: LoopId)
    | Poll(l: LoopId, reports: seq<Report>)
    | HandleNext(l: LoopId, r: ReadResult)
    | ShutDown(c: ConnId)

  /** `poll` reports on registered channels of the loop with some interest, each once. */
  ghost predicate Plausible(s: Server, l: LoopId, reports: seq<Report>) {
    && (forall i | 0 <= i < |reports| ::
          && reports[i].c in s.conns && s.conns[reports[i].c].loop == l
          && s.conns[reports[i].c].registered && s.conns[reports[i].c].interest
          && !HangupThenRead(reports[i].revents))
    && (forall i, j | 0 <= i < j < |reports| :: reports[i].c != reports[j].c)
  }

  ghost predicate Enabled(s: Server, step: Step) {
    match step
    case Accept(_) => s.next !in s.conns
    case RunTask(l) => Active(s, l) == [] && Queue(s, l) != [] && Queue(s, l)[0].c in s.conns
    case Poll(l, reports) => Active(s, l) == [] && Plausible(s, l, reports)
    case HandleNext(l, _) => Active(s, l) != [] && Active(s, l)[0].c in s.conns
    case ShutDown(c) => c in s.conns
  }

  function Accepted(s: Server, io: LoopId): Server {
    var c := s.next;
    RunInLoop(s.(conns := s.conns[c := Record(io, Connecting, false, false, [])],
                 connections := s.connections + {c}, next := c + 1), BASE, io, Established(c))
  }

  function Popped(s: Server, l: LoopId): Server
    requires Queue(s, l) != []
  {
    s.(queues := s.queues[l := Queue(s, l)[1..]])
  }

  function Taken(s: Server, l: LoopId): Server
    requires Active(s, l) != []
  {
    s.(active := s.active[l := Active(s, l)[1..]])
  }

  function ShutDownConn(s: Server, c: ConnId): Server
    requires c in s.conns
  {
    if s.conns[c].state == Connected then s.(conns := s.conns[c := s.conns[c].(state := Disconnecting)]) else s
  }

  ghost function Apply(s: Server, step: Step): Server
    requires Enabled(s, step)
  {
    match step
    case Accept(io) => Accepted(s, io)
    case RunTask(l) => Execute(Popped(s, l), Queue(s, l)[0])
    case Poll(l, reports) => s.(active := s.active[l := reports])
    case HandleNext(l, r) =>
      var report := Active(s, l)[0];
      Dispatch(Taken(s, l), report.c, Callbacks(report.revents), r)
    case ShutDown(c) => ShutDownConn(s, c)
  }

  ghost predicate Runs(s: Server, steps: seq<Step>)
    decreases |steps|
  {
    steps == [] || (Enabled(s, steps[0]) && Runs(Apply(s, steps[0]), steps[1..]))
  }

  ghost function Final(s: Server, steps: seq<Step>): Server
    requires Runs(s, steps)
    decreases |steps|
  {
    if steps == [] then s else Final(Apply(s, steps[0]), steps[1..])
  }

  // ---- the order of a life ----

  predicate Follows(a: Note, b: Note) {
    match a
    case Up => b == Message || b == Down
    case Message => b == Message || b == Down
    case Down => b == Erased
    case Erased => b == Removed
    case Removed => false
  }

  ghost predicate LogOk(log: seq<Note>) {
    && (log != [] ==> log[0] == Up)
    && (forall i | 0 <= i < |log| - 1 :: Follows(log[i], log[i + 1]))
  }

  predicate MayNote(log: seq<Note>, n: Note) {
    if log == [] then n == Up else Follows(log[|log| - 1], n)
  }

  lemma LogGrows(log: seq<Note>, n: Note)
    requires LogOk(log) && MayNote(log, n)
    ensures LogOk(log + [n])
  {
    var log' := log + [n];
    forall i | 0 <= i < |log'| - 1 ensures Follows(log'[i], log'[i + 1]) {
      if i < |log| - 1 { assert Follows(log[i], log[i + 1]); }
    }
  }

  function Rank(n: Note): int {
    match n case Up => 0 case Message => 1 case Down => 2 case Erased => 3 case Removed => 4
  }

  /** In a proper log everything but messages happens at most once, in order, and messages lie
      between UP and DOWN. */
  lemma {:induction false} LogOrder(log: seq<Note>, i: nat, j: nat)
    requires LogOk(log) && i < j < |log|
    ensures Rank(log[i]) < Rank(log[j]) || log[i] == log[j] == Message
    decreases j - i
  {
    assert Follows(log[i], log[i + 1]);
    if i + 1 < j {
      LogOrder(log, i + 1, j);
    }
  }

  // ---- the invariant ----

  datatype Stage = Waiting | Live | Closed | Gone | Departing

  function StageOf(log: seq<Note>): Stage {
    if log == [] then Waiting
    else match log[|log| - 1]
      case Down => Closed
      case Erased => Departing
      case Removed => Gone
      case _ => Live
  }

  ghost predicate RecordOk(k: Record) {
    && LogOk(k.log)
    && match StageOf(k.log)
       case Waiting => k.state == Connecting && !k.registered && !k.interest
       case Live => (k.state == Connected || k.state == Disconnecting) && k.registered && k.interest
       case Closed => k.state == Disconnected && k.registered && !k.interest
       case Departing => k.state == Disconnected && k.registered && !k.interest
       case Gone => k.state == Disconnected && !k.registered && !k.interest
  }

  datatype Due = Nothing | On(l: LoopId, t: Task)

  /** The one functor that is on its way for a connection. */
  function DueFor(c: ConnId, k: Record): Due {
    match StageOf(k.log)
    case Waiting => On(k.loop, Established(c))
    case Closed => On(BASE, RemoveInLoop(c))
    case Departing => On(k.loop, Destroyed(c))
    case _ => Nothing
  }

  predicate InMap(k: Record) { var g := StageOf(k.log); g == Waiting || g == Live || g == Closed }

  ghost predicate ConnOk(s: Server, c: ConnId)
    requires c in s.conns
  {
    var k := s.conns[c];
    && RecordOk(k) && c < s.next
    && (c in s.connections <==> InMap(k))
    && (DueFor(c, k).On? ==> DueFor(c, k).t in Queue(s, DueFor(c, k).l))
  }

  ghost predicate TaskOk(s: Server, l: LoopId, t: Task) {
    t.c in s.conns && DueFor(t.c, s.conns[t.c]) == On(l, t)
  }

  ghost predicate ReportOk(s: Server, l: LoopId, r: Report) {
    && r.c in s.conns && s.conns[r.c].loop == l && StageOf(s.conns[r.c].log) == Live
    && !HangupThenRead(r.revents)
  }

  /** The invariant for every connection but x, about which no functor and no report is pending. */
  ghost predicate OkExcept(s: Server, x: ConnId) {
    && (forall c | c in s.conns && c != x :: ConnOk(s, c))
    && s.connections <= s.conns.Keys + {x}
    && (forall l, i | 0 <= i < |Queue(s, l)| :: TaskOk(s, l, Queue(s, l)[i]) && Queue(s, l)[i].c != x)
    && (forall l, i, j | 0 <= i < j < |Queue(s, l)| :: Queue(s, l)[i] != Queue(s, l)[j])
    && (forall l, i | 0 <= i < |Active(s, l)| :: ReportOk(s, l, Active(s, l)[i]) && Active(s, l)[i].c != x)
    && (forall l, i, j | 0 <= i < j < |Active(s, l)| :: Active(s, l)[i].c != Active(s, l)[j].c)
  }

  ghost predicate Inv(s: Server) {
    && (forall c | c in s.conns :: ConnOk(s, c))
    && s.connections <= s.conns.Keys
    && (forall l, i | 0 <= i < |Queue(s, l)| :: TaskOk(s, l, Queue(s, l)[i]))
    && (forall l, i, j | 0 <= i < j < |Queue(s, l)| :: Queue(s, l)[i] != Queue(s, l)[j])
    && (forall l, i | 0 <= i < |Active(s, l)| :: ReportOk(s, l, Active(s, l)[i]))
    && (forall l, i, j | 0 <= i < j < |Active(s, l)| :: Active(s, l)[i].c != Active(s, l)[j].c)
  }

  /** Connection x gets the record k, its place in the map and its next functor. */
  function Moved(s: Server, x: ConnId, k: Record): Server {
    var s' := s.(conns := s.conns[x := k],
                 connections := if InMap(k) then s.connections + {x} else s.connections - {x});
    match DueFor(x, k)
    case Nothing => s'
    case On(l, t) => Post(s', l, t)
  }

  lemma MovedQueues(s: Server, x: ConnId, k: Record, l: LoopId)
    ensures Queue(Moved(s, x, k), l) ==
              Queue(s, l) + (if DueFor(x, k).On? && DueFor(x, k).l == l then [DueFor(x, k).t] else [])
    ensures Active(Moved(s, x, k), l) == Active(s, l)
  {
  }

  lemma MoveConns(s: Server, x: ConnId, k: Record, c: ConnId)
    requires OkExcept(s, x) && RecordOk(k) && x < s.next && c in Moved(s, x, k).conns
    ensures ConnOk(Moved(s, x, k), c)
  {
    var s' := Moved(s, x, k);
    if c == x {
      if DueFor(x, k).On? { MovedQueues(s, x, k, DueFor(x, k).l); }
    } else {
      assert ConnOk(s, c);
      var d := DueFor(c, s.conns[c]);
      if d.On? { MovedQueues(s, x, k, d.l); }
    }
  }

  lemma MoveQueue(s: Server, x: ConnId, k: Record, l: LoopId)
    requires OkExcept(s, x) && RecordOk(k)
    ensures var q := Queue(Moved(s, x, k), l);
            && (forall i | 0 <= i < |q| :: TaskOk(Moved(s, x, k), l, q[i]))
            && (forall i, j | 0 <= i < j < |q| :: q[i] != q[j])
  {
    MovedQueues(s, x, k, l);
    var q, q' := Queue(s, l), Queue(Moved(s, x, k), l);
    forall i | 0 <= i < |q'| ensures TaskOk(Moved(s, x, k), l, q'[i]) {
      if i < |q| { assert TaskOk(s, l, q[i]); }
    }
    forall i, j | 0 <= i < j < |q'| ensures q'[i] != q'[j] {
      if j == |q| { assert q[i].c != x && q'[j].c == x; }
    }
  }

  lemma MoveActive(s: Server, x: ConnId, k: Record, l: LoopId)
    requires OkExcept(s, x)
    ensures var a := Active(Moved(s, x, k), l);
            && (forall i | 0 <= i < |a| :: ReportOk(Moved(s, x, k), l, a[i]))
            && (forall i, j | 0 <= i < j < |a| :: a[i].c != a[j].c)
  {
    MovedQueues(s, x, k, l);
    forall i | 0 <= i < |Active(s, l)| ensures ReportOk(Moved(s, x, k), l, Active(s, l)[i]) {
      assert ReportOk(s, l, Active(s, l)[i]);
    }
  }

  lemma MoveKeeps(s: Server, x: ConnId, k: Record)
    requires OkExcept(s, x) && RecordOk(k) && x < s.next
    ensures Inv(Moved(s, x, k))
  {
    var s' := Moved(s, x, k);
    forall c | c in s'.conns ensures ConnOk(s', c) { MoveConns(s, x, k, c); }
    forall l, i | 0 <= i < |Queue(s', l)| ensures TaskOk(s', l, Queue(s', l)[i]) { MoveQueue(s, x, k, l); }
    forall l, i, j | 0 <= i < j < |Queue(s', l)| ensures Queue(s', l)[i] != Queue(s', l)[j] { MoveQueue(s, x, k, l); }
    forall l, i | 0 <= i < |Active(s', l)| ensures ReportOk(s', l, Active(s', l)[i]) { MoveActive(s, x, k, l); }
    forall l, i, j | 0 <= i < j < |Active(s', l)| ensures Active(s', l)[i].c != Active(s', l)[j].c {
      MoveActive(s, x, k, l);
    }
  }

  // ---- every step keeps it ----

  /** Once its functor is taken off the queue, nothing else is pending about the connection. */
  lemma PopFrees(s: Server, l: LoopId)
    requires Inv(s) && Queue(s, l) != []
    ensures OkExcept(Popped(s, l), Queue(s, l)[0].c)
  {
    var t, s' := Queue(s, l)[0], Popped(s, l);
    assert TaskOk(s, l, t);
    forall c | c in s'.conns && c != t.c ensures ConnOk(s', c) {
      assert ConnOk(s, c);
      var d := DueFor(c, s.conns[c]);
      if d.On? && d.l == l {
        assert Queue(s, l) == [t] + Queue(s', l);
      }
    }
    forall m, i | 0 <= i < |Queue(s', m)| ensures TaskOk(s', m, Queue(s', m)[i]) && Queue(s', m)[i].c != t.c {
      if m == l {
        assert Queue(s', m)[i] == Queue(s, m)[i + 1] && TaskOk(s, m, Queue(s, m)[i + 1]);
        assert Queue(s, l)[0] != Queue(s, l)[i + 1];
      } else {
        assert TaskOk(s, m, Queue(s, m)[i]);
      }
    }
    forall m, i, j | 0 <= i < j < |Queue(s', m)| ensures Queue(s', m)[i] != Queue(s', m)[j] {
      if m == l {
        assert Queue(s, m)[i + 1] != Queue(s, m)[j + 1];
      } else {
        assert Queue(s, m)[i] != Queue(s, m)[j];
      }
    }
    forall m, i | 0 <= i < |Active(s', m)| ensures ReportOk(s', m, Active(s', m)[i]) && Active(s', m)[i].c != t.c {
      assert ReportOk(s, m, Active(s, m)[i]);
    }
    forall m, i, j | 0 <= i < j < |Active(s', m)| ensures Active(s', m)[i].c != Active(s', m)[j].c {
      assert Active(s, m)[i].c != Active(s, m)[j].c;
    }
  }

  /** Likewise for the report of a live connection. */
  lemma TakeFrees(s: Server, l: LoopId)
    requires Inv(s) && Active(s, l) != []
    ensures ReportOk(s, l, Active(s, l)[0]) && OkExcept(Taken(s, l), Active(s, l)[0].c)
  {
    var r, s' := Active(s, l)[0], Taken(s, l);
    assert ReportOk(s, l, r);
    forall c | c in s'.conns && c != r.c ensures ConnOk(s', c) {
      assert ConnOk(s, c);
    }
    forall m, i | 0 <= i < |Queue(s', m)| ensures TaskOk(s', m, Queue(s', m)[i]) && Queue(s', m)[i].c != r.c {
      assert TaskOk(s, m, Queue(s, m)[i]);
    }
    forall m, i, j | 0 <= i < j < |Queue(s', m)| ensures Queue(s', m)[i] != Queue(s', m)[j] {
      assert Queue(s, m)[i] != Queue(s, m)[j];
    }
    forall m, i | 0 <= i < |Active(s', m)| ensures ReportOk(s', m, Active(s', m)[i]) && Active(s', m)[i].c != r.c {
      if m == l {
        assert Active(s', m)[i] == Active(s, m)[i + 1] && ReportOk(s, m, Active(s, m)[i + 1]);
        assert Active(s, l)[0].c != Active(s, l)[i + 1].c;
      } else {
        assert ReportOk(s, m, Active(s, m)[i]);
      }
    }
    forall m, i, j | 0 <= i < j < |Active(s', m)| ensures Active(s', m)[i].c != Active(s', m)[j].c {
      if m == l {
        assert Active(s, m)[i + 1].c != Active(s, m)[j + 1].c;
      } else {
        assert Active(s, m)[i].c != Active(s, m)[j].c;
      }
    }
  }

  /** The asserts of the handlers: `connectEstablished` finds `kConnecting`, `erase` finds exactly one
      entry, and `remove` finds a registered channel without interest after a single DOWN. */
  predicate TaskAsserts(s: Server, t: Task) {
    && t.c in s.conns
    && match t
       case Established(c) => s.conns[c].state == Connecting
       case RemoveInLoop(c) => c in s.connections
       case Destroyed(c) => s.conns[c].state == Disconnected && !s.conns[c].interest && s.conns[c].registered
  }

  lemma EstablishKeeps(p: Server, c: ConnId)
    requires OkExcept(p, c) && c < p.next && c in p.conns && RecordOk(p.conns[c])
    requires StageOf(p.conns[c].log) == Waiting && c in p.connections
    ensures Inv(Execute(p, Established(c)))
  {
    var k := p.conns[c];
    LogGrows(k.log, Up);
    var k' := k.(state := Connected, registered := true, interest := true, log := k.log + [Up]);
    MoveKeeps(p, c, k');
    assert p.connections + {c} == p.connections;
    assert Execute(p, Established(c)) == Moved(p, c, k');
  }

  lemma EraseKeeps(p: Server, c: ConnId)
    requires OkExcept(p, c) && c < p.next && c in p.conns && RecordOk(p.conns[c])
    requires StageOf(p.conns[c].log) == Closed
    ensures Inv(Execute(p, RemoveInLoop(c)))
  {
    var k := p.conns[c];
    LogGrows(k.log, Erased);
    var k' := k.(log := k.log + [Erased]);
    MoveKeeps(p, c, k');
    assert Execute(p, RemoveInLoop(c)) == Moved(p, c, k');
  }

  lemma DestroyKeeps(p: Server, c: ConnId)
    requires OkExcept(p, c) && c < p.next && c in p.conns && RecordOk(p.conns[c])
    requires StageOf(p.conns[c].log) == Departing && c !in p.connections
    ensures Inv(Execute(p, Destroyed(c)))
  {
    var k := p.conns[c];
    LogGrows(k.log, Removed);
    var k' := k.(registered := false, log := k.log + [Removed]);
    MoveKeeps(p, c, k');
    assert p.connections - {c} == p.connections;
    assert Execute(p, Destroyed(c)) == Moved(p, c, k');
  }

  lemma ExecuteKeeps(s: Server, l: LoopId)
    requires Inv(s) && Queue(s, l) != []
    ensures TaskAsserts(s, Queue(s, l)[0]) && Inv(Execute(Popped(s, l), Queue(s, l)[0]))
  {
    var t, p := Queue(s, l)[0], Popped(s, l);
    assert TaskOk(s, l, t) && ConnOk(s, t.c);
    PopFrees(s, l);
    match t
    case Established(c) => EstablishKeeps(p, c);
    case RemoveInLoop(c) => EraseKeeps(p, c);
    case Destroyed(c) => DestroyKeeps(p, c);
  }

  lemma NextIsFree(s: Server)
    requires Inv(s)
    ensures s.next !in s.conns
  {
    forall c | c in s.conns ensures c < s.next { assert ConnOk(s, c); }
  }

  lemma NextIsQuiet(s: Server)
    requires Inv(s) && s.next !in s.conns
    ensures OkExcept(s.(next := s.next + 1), s.next)
  {
    var c := s.next;
    var p := s.(next := c + 1);
    forall m, i | 0 <= i < |Queue(p, m)| ensures TaskOk(p, m, Queue(p, m)[i]) && Queue(p, m)[i].c != c {
      assert TaskOk(s, m, Queue(s, m)[i]);
    }
    forall m, i | 0 <= i < |Active(p, m)| ensures ReportOk(p, m, Active(p, m)[i]) && Active(p, m)[i].c != c {
      assert ReportOk(s, m, Active(s, m)[i]);
    }
    forall d | d in p.conns && d != c ensures ConnOk(p, d) {
      assert ConnOk(s, d);
    }
    forall m, i, j | 0 <= i < j < |Queue(p, m)| ensures Queue(p, m)[i] != Queue(p, m)[j] {
      assert Queue(s, m)[i] != Queue(s, m)[j];
    }
    forall m, i, j | 0 <= i < j < |Active(p, m)| ensures Active(p, m)[i].c != Active(p, m)[j].c {
      assert Active(s, m)[i].c != Active(s, m)[j].c;
    }
  }

  lemma AcceptOnBase(s: Server)
    requires Inv(s) && s.next !in s.conns
    ensures Inv(Accepted(s, BASE))
  {
    var c, p := s.next, s.(next := s.next + 1);
    NextIsQuiet(s);
    var k' := Record(BASE, Connected, true, true, [Up]);
    MoveKeeps(p, c, k');
    AcceptedOnBase(s);
    assert Accepted(s, BASE) == Moved(p, c, k');
  }

  lemma AcceptedOnBase(s: Server)
    ensures Accepted(s, BASE) ==
      Server(s.conns[s.next := Record(BASE, Connected, true, true, [Up])], s.connections + {s.next}, s.next + 1,
             s.queues, s.active)
  {
    var k, k' := Record(BASE, Connecting, false, false, []), Record(BASE, Connected, true, true, [Up]);
    assert s.conns[s.next := k][s.next := k'] == s.conns[s.next := k'];
    assert [] + [Up] == [Up];
  }

  lemma AcceptKeeps(s: Server, io: LoopId)
    requires Inv(s) && s.next !in s.conns
    ensures Inv(Accepted(s, io))
  {
    if io == BASE {
      AcceptOnBase(s);
    } else {
      NextIsQuiet(s);
      AcceptedElsewhere(s, io);
      MoveKeeps(s.(next := s.next + 1), s.next, Record(io, Connecting, false, false, []));
    }
  }

  lemma AcceptedElsewhere(s: Server, io: LoopId)
    requires io != BASE
    ensures Accepted(s, io) == Moved(s.(next := s.next + 1), s.next, Record(io, Connecting, false, false, []))
  {
  }

  ghost predicate LiveIn(s: Server, c: ConnId) {
    c in s.conns && c in s.connections && c < s.next && RecordOk(s.conns[c]) && StageOf(s.conns[c].log) == Live
  }

  lemma CloseKeeps(s: Server, c: ConnId)
    requires OkExcept(s, c) && LiveIn(s, c)
    ensures Inv(Close(s, c)) && Close(s, c).conns[c].state == Disconnected
  {
    var k := s.conns[c];
    LogGrows(k.log, Down);
    var k' := k.(state := Disconnected, interest := false, log := k.log + [Down]);
    if k.loop == BASE {
      LogGrows(k'.log, Erased);
      var k'' := k'.(log := k'.log + [Erased]);
      MoveKeeps(s, c, k'');
      assert s.conns[c := k'][c := k''] == s.conns[c := k''];
      assert Close(s, c) == Moved(s, c, k'');
    } else {
      MoveKeeps(s, c, k');
      assert s.connections + {c} == s.connections;
      assert Close(s, c) == Moved(s, c, k');
    }
  }

  lemma NoteMessage(s: Server, c: ConnId)
    requires OkExcept(s, c) && LiveIn(s, c)
    ensures Inv(Noted(s, c, s.conns[c], Message))
  {
    var k := s.conns[c];
    LogGrows(k.log, Message);
    var k' := k.(log := k.log + [Message]);
    MoveKeeps(s, c, k');
    assert s.connections + {c} == s.connections;
    assert Noted(s, c, k, Message) == Moved(s, c, k');
  }

  lemma Unchanged(s: Server, c: ConnId)
    requires OkExcept(s, c) && LiveIn(s, c)
    ensures Inv(s)
  {
    MoveKeeps(s, c, s.conns[c]);
    assert s.connections + {c} == s.connections;
    assert Moved(s, c, s.conns[c]) == s;
  }

  lemma ReadKeeps(s: Server, c: ConnId, r: ReadResult)
    requires OkExcept(s, c) && LiveIn(s, c)
    ensures Inv(Read(s, c, r))
  {
    match r
    case Data => NoteMessage(s, c);
    case Eof => CloseKeeps(s, c);
    case Error => Unchanged(s, c);
  }

  /** Callbacks that touch no milestone. */
  lemma {:induction false} QuietDispatch(s: Server, c: ConnId, callbacks: seq<Callback>, r: ReadResult)
    requires c in s.conns && CloseCallback !in callbacks && ReadCallback !in callbacks
    ensures Dispatch(s, c, callbacks, r) == s
    decreases |callbacks|
  {
    if callbacks != [] { QuietDispatch(s, c, callbacks[1..], r); }
  }

  /** The dispatch of a report is its close, its read, both in this order, or nothing. */
  lemma DispatchIs(s: Server, c: ConnId, revents: bv16, r: ReadResult)
    requires c in s.conns
    ensures var close := Has(revents, POLLHUP) && !Has(revents, POLLIN);
            var s' := if close then Close(s, c) else s;
            Dispatch(s, c, Callbacks(revents), r) ==
              if Has(revents, POLLIN | POLLPRI | POLLRDHUP) then Read(s', c, r) else s'
  {
    var close, read := Has(revents, POLLHUP) && !Has(revents, POLLIN), Has(revents, POLLIN | POLLPRI | POLLRDHUP);
    var s1 := if close then Close(s, c) else s;
    var tail := When(Has(revents, POLLOUT), WriteCallback);
    var l2 := When(read, ReadCallback) + tail;
    var l1 := When(Has(revents, POLLERR | POLLNVAL), ErrorCallback) + l2;
    assert Callbacks(revents) == When(close, CloseCallback) + l1;
    DispatchFirst(s, c, close, CloseCallback, l1, r);
    DispatchFirst(s1, c, Has(revents, POLLERR | POLLNVAL), ErrorCallback, l2, r);
    DispatchFirst(s1, c, read, ReadCallback, tail, r);
    QuietDispatch(if read then Read(s1, c, r) else s1, c, tail, r);
  }

  lemma DispatchFirst(s: Server, c: ConnId, b: bool, cb: Callback, rest: seq<Callback>, r: ReadResult)
    requires c in s.conns
    ensures Dispatch(s, c, When(b, cb) + rest, r) ==
      Dispatch(if b && cb == CloseCallback then Close(s, c) else if b && cb == ReadCallback then Read(s, c, r) else s,
               c, rest, r)
  {
    assert ([cb] + rest)[1..] == rest;
    assert [] + rest == rest;
  }

  lemma HandleKeeps(s: Server, l: LoopId, r: ReadResult)
    requires Inv(s) && Active(s, l) != []
    ensures Active(s, l)[0].c in s.connections
    ensures Inv(Dispatch(Taken(s, l), Active(s, l)[0].c, Callbacks(Active(s, l)[0].revents), r))
  {
    var report, p := Active(s, l)[0], Taken(s, l);
    TakeFrees(s, l);
    assert ConnOk(s, report.c);
    DispatchIs(p, report.c, report.revents, r);
    ReadMask(report.revents);
    if Has(report.revents, POLLHUP) && !Has(report.revents, POLLIN) {
      CloseKeeps(p, report.c);
    } else {
      ReadKeeps(p, report.c, r);
      Unchanged(p, report.c);
    }
  }

  lemma ShutDownKeeps(s: Server, c: ConnId)
    requires Inv(s) && c in s.conns
    ensures Inv(ShutDownConn(s, c))
  {
    assert ConnOk(s, c);
    var s' := ShutDownConn(s, c);
    forall d | d in s'.conns ensures ConnOk(s', d) { assert ConnOk(s, d); }
    forall m, i | 0 <= i < |Queue(s', m)| ensures TaskOk(s', m, Queue(s', m)[i]) {
      assert TaskOk(s, m, Queue(s, m)[i]);
    }
    forall m, i, j | 0 <= i < j < |Queue(s', m)| ensures Queue(s', m)[i] != Queue(s', m)[j] {
      assert Queue(s, m)[i] != Queue(s, m)[j];
    }
    forall m, i | 0 <= i < |Active(s', m)| ensures ReportOk(s', m, Active(s', m)[i]) {
      assert ReportOk(s, m, Active(s, m)[i]);
    }
    forall m, i, j | 0 <= i < j < |Active(s', m)| ensures Active(s', m)[i].c != Active(s', m)[j].c {
      assert Active(s, m)[i].c != Active(s, m)[j].c;
    }
  }

  lemma PollKeeps(s: Server, l: LoopId, reports: seq<Report>)
    requires Inv(s) && Active(s, l) == [] && Plausible(s, l, reports)
    ensures Inv(s.(active := s.active[l := reports]))
  {
    var s' := s.(active := s.active[l := reports]);
    forall d | d in s'.conns ensures ConnOk(s', d) { assert ConnOk(s, d); }
    forall m, i | 0 <= i < |Queue(s', m)| ensures TaskOk(s', m, Queue(s', m)[i]) {
      assert TaskOk(s, m, Queue(s, m)[i]);
    }
    forall m, i, j | 0 <= i < j < |Queue(s', m)| ensures Queue(s', m)[i] != Queue(s', m)[j] {
      assert Queue(s, m)[i] != Queue(s, m)[j];
    }
    forall m, i | 0 <= i < |Active(s', m)| ensures ReportOk(s', m, Active(s', m)[i]) {
      if m == l {
        assert ConnOk(s, reports[i].c);
      } else {
        assert ReportOk(s, m, Active(s, m)[i]);
      }
    }
    forall m, i, j | 0 <= i < j < |Active(s', m)| ensures Active(s', m)[i].c != Active(s', m)[j].c {
      if m != l { assert Active(s, m)[i].c != Active(s, m)[j].c; }
    }
  }

  lemma StepKeeps(s: Server, step: Step)
    requires Inv(s) && Enabled(s, step)
    ensures Inv(Apply(s, step))
  {
    match step
    case Accept(io) => AcceptKeeps(s, io);
    case RunTask(l) => ExecuteKeeps(s, l);
    case Poll(l, reports) => PollKeeps(s, l, reports);
    case HandleNext(l, r) => HandleKeeps(s, l, r);
    case ShutDown(c) => ShutDownKeeps(s, c);
  }

  lemma {:induction false} RunKeeps(s: Server, steps: seq<Step>)
    requires Inv(s) && Runs(s, steps)
    ensures Inv(Final(s, steps))
    decreases |steps|
  {
    if steps != [] {
      StepKeeps(s, steps[0]);
      RunKeeps(Apply(s, steps[0]), steps[1..]);
    }
  }

  /** Over every run of the base loop and any number of io loops: each connection lives in the order
      UP, messages, DOWN, erased, removed; the functor that takes it to the next stage is queued on
      the right loop; no assert of a functor about to run can fail; and a reported event finds its
      connection in the server's map, up and not yet down. */
  lemma Lifecycle(steps: seq<Step>)
    requires Runs(START, steps)
    ensures var s := Final(START, steps);
            && (forall c | c in s.conns :: LogOk(s.conns[c].log) && ConnOk(s, c))
            && (forall l | Queue(s, l) != [] :: TaskAsserts(s, Queue(s, l)[0]))
            && (forall l | Active(s, l) != [] :: LiveIn(s, Active(s, l)[0].c))
  {
    assert Inv(START);
    RunKeeps(START, steps);
    var s := Final(START, steps);
    forall l | Queue(s, l) != [] ensures TaskAsserts(s, Queue(s, l)[0]) { ExecuteKeeps(s, l); }
    forall l | Active(s, l) != []
      ensures LiveIn(s, Active(s, l)[0].c)
    {
      TakeFrees(s, l);
      assert ConnOk(s, Active(s, l)[0].c);
      HandleKeeps(s, l, Error);
    }
  }

  /** The assumption on `poll` is the right one: the dispatch of a live connection keeps its log in
      order for every result of the read exactly when the report is not a hang-up with a read. */
  lemma DispatchSafeIff(s: Server, c: ConnId, revents: bv16)
    requires OkExcept(s, c) && LiveIn(s, c)
    ensures (forall r :: LogOk(Dispatch(s, c, Callbacks(revents), r).conns[c].log)) <==> !HangupThenRead(revents)
    ensures HangupThenRead(revents) <==> CloseCallback in Callbacks(revents) && ReadCallback in Callbacks(revents)
  {
    ReadMask(revents);
    CloseThenReadIff(revents);
    if HangupThenRead(revents) {
      DispatchIs(s, c, revents, Data);
      var log := Close(s, c).conns[c].log;
      var log' := log + [Message];
      assert Dispatch(s, c, Callbacks(revents), Data).conns[c].log == log';
      CloseKeeps(s, c);
      assert !Follows(log'[|log| - 1], log'[|log|]);
    } else {
      forall r ensures LogOk(Dispatch(s, c, Callbacks(revents), r).conns[c].log) {
        DispatchIs(s, c, revents, r);
        if Has(revents, POLLHUP) && !Has(revents, POLLIN) {
          CloseKeeps(s, c);
          assert ConnOk(Close(s, c), c);
        } else {
          ReadKeeps(s, c, r);
          assert ConnOk(Read(s, c, r), c);
        }
      }
    }
  }

  // ---- which event adds which note ----

  /** A close is noted as DOWN; on the base loop the erasure follows at once. */
  function CloseNotes(l: LoopId): seq<Note> { if l == BASE then [Down, Erased] else [Down] }

  /** What handling a report adds: a hang-up closes; a read notes a message, closes at end of file and
      adds nothing on an error. */
  function ReportNotes(l: LoopId, revents: bv16, r: ReadResult): seq<Note> {
    if CloseCallback in Callbacks(revents) then CloseNotes(l)
    else if ReadCallback in Callbacks(revents) then
      match r case Data => [Message] case Eof => CloseNotes(l) case Error => []
    else []
  }

  function TaskNotes(t: Task): seq<Note> {
    match t case Established(_) => [Up] case RemoveInLoop(_) => [Erased] case Destroyed(_) => [Removed]
  }

  /** What a step adds to the log of connection c. */
  ghost function NotesFor(s: Server, step: Step, c: ConnId): seq<Note>
    requires Enabled(s, step)
  {
    match step
    case RunTask(l) => if Queue(s, l)[0].c == c then TaskNotes(Queue(s, l)[0]) else []
    case HandleNext(l, r) =>
      var report := Active(s, l)[0];
      if report.c == c then ReportNotes(s.conns[c].loop, report.revents, r) else []
    case _ => []
  }

  /** The connection's state: the last of UP and DOWN decides, and `shutdown()` in between. */
  function StateAfter(st: State, added: seq<Note>, shutDown: bool): State {
    if Up in added then Connected
    else if Down in added then Disconnected
    else if shutDown && st == Connected then Disconnecting
    else st
  }

  ghost predicate Noting(k: Record, k': Record, added: seq<Note>, shutDown: bool) {
    && k'.log == k.log + added && k'.loop == k.loop
    && k'.state == StateAfter(k.state, added, shutDown)
  }

  /** One connection is given the notes, every other is left alone. */
  ghost predicate OnlyNotes(s: Server, s': Server, c: ConnId, added: seq<Note>, shutDown: bool)
    requires c in s.conns
  {
    && c in s'.conns && s'.conns == s.conns[c := s'.conns[c]]
    && Noting(s.conns[c], s'.conns[c], added, shutDown)
  }

  lemma CloseAdds(s: Server, c: ConnId)
    requires c in s.conns
    ensures OnlyNotes(s, Close(s, c), c, CloseNotes(s.conns[c].loop), false)
  {
    var log := s.conns[c].log;
    assert log + [Down] + [Erased] == log + [Down, Erased];
  }

  lemma NothingAdded(s: Server, s': Server, c: ConnId)
    requires c in s.conns && s'.conns == s.conns
    ensures OnlyNotes(s, s', c, [], false)
  {
    assert s.conns[c].log + [] == s.conns[c].log;
    assert s.conns == s.conns[c := s.conns[c]];
  }

  lemma DispatchAdds(s: Server, c: ConnId, revents: bv16, r: ReadResult)
    requires c in s.conns && !HangupThenRead(revents)
    ensures OnlyNotes(s, Dispatch(s, c, Callbacks(revents), r), c, ReportNotes(s.conns[c].loop, revents, r), false)
    ensures ReportNotes(s.conns[c].loop, revents, r) == [] ==> Dispatch(s, c, Callbacks(revents), r) == s
  {
    DispatchIs(s, c, revents, r);
    ListedIff(Has(revents, POLLHUP) && !Has(revents, POLLIN), Has(revents, POLLERR | POLLNVAL),
              Has(revents, POLLIN | POLLPRI | POLLRDHUP), Has(revents, POLLOUT));
    CloseThenReadIff(revents);
    CloseAdds(s, c);
    NothingAdded(s, s, c);
  }

  lemma TaskAdds(s: Server, l: LoopId)
    requires Inv(s) && Queue(s, l) != []
    ensures var t := Queue(s, l)[0];
            t.c in s.conns && OnlyNotes(s, Execute(Popped(s, l), t), t.c, TaskNotes(t), false)
  {
    var t := Queue(s, l)[0];
    assert TaskOk(s, l, t) && ConnOk(s, t.c);
  }

  /** A connection destroyed while still up, as when its server goes first, gets its DOWN before. */
  lemma DestroyAdds(s: Server, c: ConnId)
    requires c in s.conns
    ensures var up, s' := s.conns[c].state == Connected, Execute(s, Destroyed(c));
            && OnlyNotes(s, s', c, if up then [Down, Removed] else [Removed], false)
            && !s'.conns[c].registered && (up ==> !s'.conns[c].interest)
  {
    var log := s.conns[c].log;
    assert log + [Down] + [Removed] == log + [Down, Removed];
  }

  /** The step adds exactly these notes to the log of c. */
  lemma StepNotes(s: Server, step: Step, c: ConnId)
    requires Inv(s) && Enabled(s, step) && c in s.conns
    ensures c in Apply(s, step).conns
    ensures Noting(s.conns[c], Apply(s, step).conns[c], NotesFor(s, step, c), step == ShutDown(c))
  {
    NothingAdded(s, s, c);
    match step
    case RunTask(l) => TaskAdds(s, l);
    case HandleNext(l, r) =>
      var report := Active(s, l)[0];
      assert ReportOk(s, l, report);
      DispatchAdds(Taken(s, l), report.c, report.revents, r);
    case _ =>
  }

  /** Accepting adds one connection, waiting for its functor or, on the base loop, up at once. */
  lemma AcceptAdds(s: Server, io: LoopId)
    requires s.next !in s.conns
    ensures var s' := Accepted(s, io);
            && s.next in s'.conns && s'.next == s.next + 1 && s'.connections == s.connections + {s.next}
            && s'.conns == s.conns[s.next := s'.conns[s.next]]
            && s'.conns[s.next].loop == io
            && s'.conns[s.next].log == (if io == BASE then [Up] else [])
            && s'.conns[s.next].state == (if io == BASE then Connected else Connecting)
  {
    assert [] + [Up] == [Up];
  }

  /** All the notes of a run. */
  ghost function NotesOf(s: Server, steps: seq<Step>, c: ConnId): seq<Note>
    requires Runs(s, steps)
    decreases |steps|
  {
    if steps == [] then [] else NotesFor(s, steps[0], c) + NotesOf(Apply(s, steps[0]), steps[1..], c)
  }

  /** Over every run, the log of a connection is what the functors and the reports on it say: UP when
      `connectEstablished` runs, a message for each read with data, DOWN at the first hang-up or end
      of file, and never for a read error. */
  lemma {:induction false} LogIsHistory(s: Server, steps: seq<Step>, c: ConnId)
    requires Inv(s) && Runs(s, steps) && c in s.conns
    ensures c in Final(s, steps).conns
    ensures Final(s, steps).conns[c].log == s.conns[c].log + NotesOf(s, steps, c)
    decreases |steps|
  {
    if steps == [] {
      assert s.conns[c].log + [] == s.conns[c].log;
    } else {
      StepKeeps(s, steps[0]);
      StepNotes(s, steps[0], c);
      LogIsHistory(Apply(s, steps[0]), steps[1..], c);
      Concatenated(s.conns[c].log, NotesFor(s, steps[0], c), NotesOf(Apply(s, steps[0]), steps[1..], c));
    }
  }

  lemma Concatenated(a: seq<Note>, b: seq<Note>, c: seq<Note>)
    ensures a + (b + c) == a + b + c
  {
  }

  lemma CloseAppends(s: Server, c: ConnId, l: LoopId)
    requires c in s.conns
    ensures Queue(s, l) <= Queue(Close(s, c), l)
  {
  }

  lemma HandleAppends(s: Server, step: Step, l: LoopId)
    requires Inv(s) && Enabled(s, step) && step.HandleNext?
    ensures Queue(s, l) <= Queue(Apply(s, step), l)
  {
    var report, p := Active(s, step.l)[0], Taken(s, step.l);
    assert ReportOk(s, step.l, report);
    DispatchIs(p, report.c, report.revents, step.r);
    CloseAppends(p, report.c, l);
    ReadMask(report.revents);
  }

  lemma TaskAppends(s: Server, m: LoopId, l: LoopId)
    requires Queue(s, m) != [] && Queue(s, m)[0].c in s.conns
    ensures Queue(Popped(s, m), l) <= Queue(Execute(Popped(s, m), Queue(s, m)[0]), l)
  {
  }

  /** The queues are first in, first out: a step takes at most the first functor, from the loop that runs
      it, and adds at the end. */
  lemma QueuesAreFifo(s: Server, step: Step, l: LoopId)
    requires Inv(s) && Enabled(s, step)
    ensures (if step == RunTask(l) then Queue(s, l)[1..] else Queue(s, l)) <= Queue(Apply(s, step), l)
  {
    match step
    case HandleNext(_, _) => HandleAppends(s, step, l);
    case RunTask(m) => TaskAppends(s, m, l);
    case _ =>
  }

  // ---- the code ----

  /** `TcpServer` with the connections and loops it works on. */
  class TcpServer {
    var connections: set<ConnId>
    var nextConnId: ConnId
    var conns: map<ConnId, Record>
    var queues: map<LoopId, seq<Task>>
    var active: map<LoopId, seq<Report>>

    function View(): Server
      reads this
    {
      Server(conns, connections, nextConnId, queues, active)
    }

    constructor ()
      ensures View() == START && Inv(View())
    {
      connections, nextConnId, conns, queues, active := {}, 1, map[], map[], map[];
    }

    method QueueInLoop(l: LoopId, t: Task)
      modifies this`queues
      ensures View() == Post(old(View()), l, t)
    {
      queues := queues[l := (if l in queues then queues[l] else []) + [t]];
    }

    method ConnectEstablished(c: ConnId)
      requires TaskAsserts(View(), Established(c))
      modifies this`conns
      ensures View() == Execute(old(View()), Established(c))
    {
      var k := conns[c];
      conns := conns[c := Record(k.loop, Connected, true, true, k.log + [Up])];
    }

    method RemoveConnectionInLoop(c: ConnId)
      requires TaskAsserts(View(), RemoveInLoop(c))
      modifies this`conns, this`connections, this`queues
      ensures View() == Execute(old(View()), RemoveInLoop(c))
    {
      connections := connections - {c};
      conns := conns[c := conns[c].(log := conns[c].log + [Erased])];
      QueueInLoop(conns[c].loop, Destroyed(c));
    }

    method ConnectDestroyed(c: ConnId)
      requires c in conns
      modifies this`conns
      ensures View() == Execute(old(View()), Destroyed(c))
    {
      if conns[c].state == Connected {
        conns := conns[c := conns[c].(state := Disconnected, interest := false, log := conns[c].log + [Down])];
      }
      conns := conns[c := conns[c].(registered := false, log := conns[c].log + [Removed])];
    }

    method NewConnection(ioLoop: LoopId)
      requires Inv(View())
      modifies this
      ensures Inv(View()) && View() == Accepted(old(View()), ioLoop)
    {
      ghost var was := View();
      NextIsFree(was);
      AcceptKeeps(was, ioLoop);
      InsertConnection(ioLoop);
    }

    method InsertConnection(ioLoop: LoopId)
      modifies this
      ensures View() == Accepted(old(View()), ioLoop)
    {
      var c := nextConnId;
      nextConnId := nextConnId + 1;
      conns := conns[c := Record(ioLoop, Connecting, false, false, [])];
      connections := connections + {c};
      if ioLoop == BASE {
        ConnectEstablished(c);
      } else {
        QueueInLoop(ioLoop, Established(c));
      }
    }

    /** `handleClose`, which ends with `removeConnection`. */
    method HandleClose(c: ConnId)
      requires c in conns && c in connections
      modifies this`conns, this`connections, this`queues
      ensures View() == Close(old(View()), c)
    {
      var loop := conns[c].loop;
      conns := conns[c := conns[c].(state := Disconnected, interest := false, log := conns[c].log + [Down])];
      if loop == BASE {
        RemoveConnectionInLoop(c);
      } else {
        QueueInLoop(BASE, RemoveInLoop(c));
      }
    }

    /** `handleRead`; r is what the read returns. */
    method HandleRead(c: ConnId, r: ReadResult)
      requires c in conns && c in connections
      modifies this`conns, this`connections, this`queues
      ensures View() == Read(old(View()), c, r)
    {
      match r
      case Data => conns := conns[c := conns[c].(log := conns[c].log + [Message])];
      case Eof => HandleClose(c);
      case Error =>
    }

    /** One functor of loop l. */
    method RunFunctor(l: LoopId)
      requires Inv(View()) && Queue(View(), l) != []
      modifies this
      ensures Inv(View()) && View() == Execute(Popped(old(View()), l), old(Queue(View(), l))[0])
    {
      ghost var was := View();
      ExecuteKeeps(was, l);
      var t := queues[l][0];
      queues := queues[l := queues[l][1..]];
      match t
      case Established(c) => ConnectEstablished(c);
      case RemoveInLoop(c) => RemoveConnectionInLoop(c);
      case Destroyed(c) => ConnectDestroyed(c);
    }
  }
}
