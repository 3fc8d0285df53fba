/** `Connector`: connect, retry with growing delays, deferred channel reset and socket ownership
    (source/base/src/Connector.cpp), driven as `TcpClient` drives it (source/base/src/TcpClient.cpp). */
module Connectors {
  import opened Bytes

  const INIT_RETRY_DELAY_MS := 500
  const MAX_RETRY_DELAY_MS := 30000

  type Sock = nat

  datatype State = Disconnected | Connecting | Connected
  datatype Functor = StartInLoop | StopInLoop | ResetChannel
  datatype Slot = Null | Holds(sock: Sock)

  /** How `connect(2)` ends, by the three groups of error codes. */
  datatype ConnectResult = InProgress | Retryable | Fatal

  /** One iteration of the loop: the handling of what `poll` reported, then the functors present at
      the swap. Before the first `poll` the loop is as it is after the last functor. */
  datatype Phase = Events | Functors

  /** What the loop holds for the connector: its functors, pending and in the batch, and its timers.
      `listed`: the channel is in `activeChannels_`; `reported`: and its turn is still to come;
      `timerFresh`: the timer is from this iteration. */
  datatype Loop = Loop(queue: seq<Functor>, batch: seq<Functor>, phase: Phase, listed: bool, reported: bool,
                       timers: nat, timerFresh: bool)

  /** What became of the sockets, which are numbered as they are created. */
  datatype Sockets = Sockets(created: nat, closed: multiset<Sock>, handed: multiset<Sock>)

  /** The client: whether it called `start` and `stop`, and whether the connection handed over lives;
      `liveFresh`: it is from this iteration. */
  datatype Owner = Owner(started: bool, stopped: bool, live: bool, liveFresh: bool)

  /** The connector's fields, the delays requested since the last reset, and its surroundings. */
  datatype Conn = Conn(connect: bool, state: State, channel: Slot, delay: int, delays: seq<int>,
                       loop: Loop, sockets: Sockets, owner: Owner)

  const NEW := Conn(false, Disconnected, Null, INIT_RETRY_DELAY_MS, [], Loop([], [], Functors, false, false, 0, false),
                    Sockets(0, multiset{}, multiset{}), Owner(false, false, false, false))

  // ---- calls into the surroundings ----

  function Queued(c: Conn, f: Functor): Conn { c.(loop := c.loop.(queue := c.loop.queue + [f])) }

  /** `runAfter(delay, startInLoop)`. */
  function Scheduled(c: Conn): Conn {
    c.(loop := c.loop.(timers := c.loop.timers + 1, timerFresh := true), delays := c.delays + [c.delay])
  }

  function NewSocket(c: Conn): Conn { c.(sockets := c.sockets.(created := c.sockets.created + 1)) }

  function Closed(c: Conn, s: Sock): Conn {
    c.(sockets := c.sockets.(closed := c.sockets.closed + multiset{s}))
  }

  function HandedOver(c: Conn, s: Sock): Conn {
    c.(sockets := c.sockets.(handed := c.sockets.handed + multiset{s}),
       owner := c.owner.(live := true, liveFresh := true))
  }

  // ---- the member functions ----

  function AfterRetry(c: Conn, s: Sock): Conn {
    var c' := Closed(c, s).(state := Disconnected);
    if c.connect then Scheduled(c').(delay := Min(c.delay * 2, MAX_RETRY_DELAY_MS)) else c'
  }

  function AfterConnect(c: Conn, r: ConnectResult): Conn {
    var s, c' := c.sockets.created, NewSocket(c);
    match r
    case InProgress => c'.(state := Connecting, channel := Holds(s))
    case Retryable => AfterRetry(c', s)
    case Fatal => Closed(c', s)
  }

  function StartIn(c: Conn, r: ConnectResult): Conn {
    if c.connect then AfterConnect(c, r) else c
  }

  function RemoveAndReset(c: Conn): Conn { Queued(c, ResetChannel) }

  function StopIn(c: Conn): Conn {
    if c.state == Connecting && c.channel.Holds? then
      AfterRetry(RemoveAndReset(c.(state := Disconnected)), c.channel.sock)
    else c
  }

  /** `handleWrite`: `failed` covers a socket error and a self-connection. */
  function AfterWrite(c: Conn, failed: bool): Conn {
    if c.state == Connecting && c.channel.Holds? then
      var s, c' := c.channel.sock, RemoveAndReset(c);
      if failed then AfterRetry(c', s)
      else if c.connect then HandedOver(c'.(state := Connected), s)
      else Closed(c'.(state := Connected), s)
    else c
  }

  function AfterError(c: Conn): Conn {
    if c.channel.Holds? then AfterRetry(RemoveAndReset(c), c.channel.sock) else c
  }

  function AfterRestart(c: Conn, r: ConnectResult): Conn {
    StartIn(c.(state := Disconnected, delay := INIT_RETRY_DELAY_MS, delays := [], connect := true), r)
  }

  // ---- steps ----

  datatype Step =
    | Start(inLoop: bool, r: ConnectResult)
    | Stop(inLoop: bool)
    | Fire(r: ConnectResult)
    | Dispatch(err: bool, out: bool, failed: bool)
    | ConnectionCloses(restart: bool, r: ConnectResult)
    | Swap
    | RunFunctor(r: ConnectResult)
    | Poll(report: bool)

  /** `start` comes once, before any `stop`, which comes at any time, also from a handler of the
      iteration; a timer fires, and the new connection closes, in a later iteration than the one they
      stem from; `restart` follows the close of a handed-over connection of a client that is not
      stopped. The channel is polled while connecting, and what was reported is dispatched, whatever
      earlier handlers did. */
  predicate Enabled(c: Conn, step: Step) {
    match step
    case Start(_, _) => !c.owner.started && !c.owner.stopped
    case Stop(_) => true
    case Fire(_) => c.loop.phase == Events && c.loop.timers > 0 && !c.loop.timerFresh
    case Dispatch(_, _, _) => c.loop.reported
    case ConnectionCloses(restart, _) =>
      c.loop.phase == Events && c.owner.live && !c.owner.liveFresh && (restart ==> !c.owner.stopped)
    case Swap => c.loop.phase == Events && !c.loop.reported
    case RunFunctor(_) => c.loop.phase == Functors && c.loop.batch != []
    case Poll(report) => c.loop.phase == Functors && c.loop.batch == [] && (report ==> c.state == Connecting)
  }

  function Fired(c: Conn): Conn
    requires c.loop.timers > 0
  {
    c.(loop := c.loop.(timers := c.loop.timers - 1))
  }

  function Wanted(c: Conn): Conn { c.(connect := true, owner := c.owner.(started := true)) }

  function Unwanted(c: Conn): Conn { c.(connect := false, owner := c.owner.(stopped := true)) }

  function Parted(c: Conn): Conn { c.(owner := c.owner.(live := false)) }

  function Begun(c: Conn): Conn { c.(loop := c.loop.(reported := false)) }

  function Popped(c: Conn): Conn
    requires c.loop.batch != []
  {
    c.(loop := c.loop.(batch := c.loop.batch[1..]))
  }

  function Dispatched(c: Conn, err: bool, out: bool, failed: bool): Conn {
    var c' := if err then AfterError(c) else c;
    if out then AfterWrite(c', failed) else c'
  }

  function Execute(c: Conn, f: Functor, r: ConnectResult): Conn {
    match f
    case StartInLoop => StartIn(c, r)
    case StopInLoop => StopIn(c)
    case ResetChannel => c.(channel := Null)
  }

  function Apply(c: Conn, step: Step): Conn
    requires Enabled(c, step)
  {
    match step
    case Start(inLoop, r) =>
      if inLoop then StartIn(Wanted(c), r) else Queued(Wanted(c), StartInLoop)
    case Stop(inLoop) =>
      if inLoop then StopIn(Unwanted(c)) else Queued(Unwanted(c), StopInLoop)
    case Fire(r) => StartIn(Fired(c), r)
    case Dispatch(err, out, failed) =>
      Dispatched(Begun(c), err, out, failed)
    case ConnectionCloses(restart, r) =>
      if restart then AfterRestart(Parted(c), r) else Parted(c)
    case Swap => c.(loop := c.loop.(phase := Functors, batch := c.loop.queue, queue := [], listed := false))
    case RunFunctor(r) => Execute(Popped(c), c.loop.batch[0], r)
    case Poll(report) =>
      c.(loop := c.loop.(phase := Events, timerFresh := false, listed := report, reported := report),
         owner := c.owner.(liveFresh := false))
  }

  function Init(steps: seq<Step>): seq<Step>
    requires steps != []
  {
    steps[..|steps| - 1]
  }

  function Last(steps: seq<Step>): Step
    requires steps != []
  {
    steps[|steps| - 1]
  }

  /** The runs of a new connector. */
  ghost predicate Runs(steps: seq<Step>)
    decreases |steps|, 0
  {
    steps == [] || (Runs(Init(steps)) && Enabled(Final(Init(steps)), Last(steps)))
  }

  ghost function Final(steps: seq<Step>): Conn
    requires Runs(steps)
    decreases |steps|, 1
  {
    if steps == [] then NEW else Apply(Final(Init(steps)), Last(steps))
  }

  // ---- the invariant ----

  function InFlight(c: Conn, s: Sock): nat {
    if c.state == Connecting && c.channel == Holds(s) then 1 else 0
  }

  ghost predicate OwnedOnce(c: Conn, s: Sock) {
    c.sockets.closed[s] + c.sockets.handed[s] + InFlight(c, s) == if s < c.sockets.created then 1 else 0
  }

  /** Every socket created is in flight, closed once or handed over once. */
  ghost predicate Owned(c: Conn) {
    forall s: Sock :: OwnedOnce(c, s)
  }

  function Pending(c: Conn, f: Functor): nat { multiset(c.loop.batch)[f] + multiset(c.loop.queue)[f] }

  function Pow2(k: nat): int { if k == 0 then 1 else 2 * Pow2(k - 1) }

  function DelayAt(k: nat): int { Min(INIT_RETRY_DELAY_MS * Pow2(k), MAX_RETRY_DELAY_MS) }

  /** The k-th delay requested since the last reset is min(500 * 2^k, 30000). */
  ghost predicate DelaysOk(c: Conn) {
    && c.delay == DelayAt(|c.delays|)
    && (forall k | 0 <= k < |c.delays| :: c.delays[k] == DelayAt(k))
  }

  /** The channel is held while connecting, and afterwards until its one reset has run. */
  predicate ChannelOk(c: Conn) {
    && (c.state == Connecting ==> c.channel.Holds? && Pending(c, ResetChannel) == 0)
    && (c.state != Connecting ==> Pending(c, ResetChannel) == if c.channel.Holds? then 1 else 0)
  }

  /** A reset still pending is from this iteration, unless the client was stopped. */
  predicate ResetInTime(c: Conn) {
    !c.owner.stopped ==>
      && (c.loop.phase == Events && c.loop.timers > 0 && !c.loop.timerFresh ==> c.channel == Null)
      && (c.loop.phase == Events && c.owner.live && !c.owner.liveFresh ==> c.channel == Null)
      && (c.loop.phase == Functors ==> multiset(c.loop.queue)[ResetChannel] == 0)
  }

  predicate TimersOk(c: Conn) {
    && c.loop.timers <= 1 && (c.loop.timers == 1 ==> c.state == Disconnected && c.owner.started)
    && (c.owner.live ==> c.state == Connected)
  }

  /** `startInLoop` is queued at most once, before anything else happened. */
  predicate StartOk(c: Conn) {
    && (c.owner.stopped ==> !c.connect)
    && (!c.owner.started ==> !c.connect)
    && Pending(c, StartInLoop) <= (if c.owner.started then 1 else 0)
    && (Pending(c, StartInLoop) == 1 || !c.owner.started ==>
          c.state == Disconnected && c.channel == Null && c.loop.timers == 0 && c.sockets.created == 0 && !c.owner.live)
    && (Pending(c, StopInLoop) > 0 ==> c.owner.stopped)
    && (c.loop.phase == Events ==> c.loop.batch == [])
  }

  /** A report is about the attempt it was made for, even if that was given up since. */
  predicate ListedOk(c: Conn) {
    && (c.loop.reported ==> c.loop.listed)
    && (c.loop.listed ==> c.loop.phase == Events && c.owner.started && c.channel.Holds?)
    && (c.loop.listed ==> (c.loop.timers > 0 ==> c.loop.timerFresh) && (c.owner.live ==> c.owner.liveFresh))
    && (c.loop.reported && c.state != Connecting ==> GivenUp(c))
  }

  /** The attempt under the channel was stopped: its socket is closed. */
  predicate GivenUp(c: Conn) {
    && c.owner.stopped && !c.owner.live
    && c.state == Disconnected && c.channel.Holds? && c.sockets.closed[c.channel.sock] >= 1
  }

  ghost predicate Inv(c: Conn) {
    Owned(c) && DelaysOk(c) && ChannelOk(c) && ResetInTime(c) && TimersOk(c) && StartOk(c) && ListedOk(c)
  }

  /** The asserts of `startInLoop` and `connecting`. */
  predicate StartAsserts(c: Conn) { c.state == Disconnected && (c.connect ==> c.channel == Null) }

  lemma DelayDoubles(k: nat)
    ensures Min(DelayAt(k) * 2, MAX_RETRY_DELAY_MS) == DelayAt(k + 1)
  {
  }

  lemma RetryDelays(c: Conn, s: Sock)
    requires DelaysOk(c)
    ensures DelaysOk(AfterRetry(c, s))
  {
    DelayDoubles(|c.delays|);
  }

  /** What `startInLoop` does to an idle connector. */
  lemma StartKeeps(c: Conn, r: ConnectResult)
    requires Inv(c) && StartAsserts(c) && c.loop.timers == 0 && !c.owner.live && !c.loop.listed
    requires c.connect ==> c.owner.started && Pending(c, StartInLoop) == 0
    ensures Inv(StartIn(c, r))
  {
    var c' := StartIn(c, r);
    if c.connect {
      RetryDelays(NewSocket(c), c.sockets.created);
      assert Owned(c') by {
        forall s: Sock ensures OwnedOnce(c', s) {
          assert OwnedOnce(c, s);
        }
      }
    }
  }

  /** What leaving `kConnecting` does. */
  lemma LeaveKeeps(c: Conn, c': Conn, s: Sock)
    requires Owned(c) && c.state == Connecting && c.channel == Holds(s)
    requires c'.state != Connecting && c'.sockets.created == c.sockets.created
    requires (c'.sockets.closed == c.sockets.closed + multiset{s} && c'.sockets.handed == c.sockets.handed)
          || (c'.sockets.handed == c.sockets.handed + multiset{s} && c'.sockets.closed == c.sockets.closed)
    ensures Owned(c')
  {
    forall t: Sock ensures OwnedOnce(c', t) {
      assert OwnedOnce(c, t);
    }
  }

  lemma StopKeeps(c: Conn)
    requires Inv(c) && c.owner.stopped
    ensures Inv(StopIn(c))
  {
    if c.state == Connecting {
      var s := c.channel.sock;
      RetryDelays(RemoveAndReset(c.(state := Disconnected)), s);
      LeaveKeeps(c, StopIn(c), s);
    }
  }

  lemma ErrorKeeps(c: Conn)
    requires Inv(c) && c.loop.phase == Events && c.state == Connecting && !c.loop.reported
    ensures Inv(AfterError(c)) && AfterError(c).state == Disconnected
  {
    var s := c.channel.sock;
    RetryDelays(RemoveAndReset(c), s);
    LeaveKeeps(c, AfterError(c), s);
  }

  lemma WriteKeeps(c: Conn, failed: bool)
    requires Inv(c) && c.loop.phase == Events && c.state == Connecting && !c.loop.reported
    ensures Inv(AfterWrite(c, failed))
  {
    var s := c.channel.sock;
    RetryDelays(RemoveAndReset(c), s);
    LeaveKeeps(c, AfterWrite(c, failed), s);
  }

  lemma FireKeeps(c: Conn, r: ConnectResult)
    requires Inv(c) && Enabled(c, Fire(r))
    ensures StartAsserts(Fired(c)) && Inv(Apply(c, Fire(r)))
  {
    SameSockets(c, Fired(c));
    StartKeeps(Fired(c), r);
  }

  lemma RestartKeeps(c: Conn, r: ConnectResult)
    requires Inv(c) && Enabled(c, ConnectionCloses(true, r))
    ensures c.channel == Null && Inv(Apply(c, ConnectionCloses(true, r)))
  {
    var c' := Parted(c).(state := Disconnected, delay := INIT_RETRY_DELAY_MS, delays := [], connect := true);
    assert Owned(c') by {
      forall s: Sock ensures OwnedOnce(c', s) {
        assert OwnedOnce(c, s);
      }
    }
    assert DelaysOk(c') by { assert Pow2(0) == 1; }
    assert Inv(c');
    StartKeeps(c', r);
  }

  lemma PopCounts(q: seq<Functor>)
    requires q != []
    ensures multiset(q) == multiset(q[1..]) + multiset{q[0]}
  {
    assert q == [q[0]] + q[1..];
  }

  lemma FunctorKeeps(c: Conn, r: ConnectResult)
    requires Inv(c) && Enabled(c, RunFunctor(r))
    ensures c.loop.batch[0] == StartInLoop ==> StartAsserts(c)
    ensures Inv(Apply(c, RunFunctor(r)))
  {
    PopCounts(c.loop.batch);
    var c' := Popped(c);
    assert Owned(c') by {
      forall s: Sock ensures OwnedOnce(c', s) {
        assert OwnedOnce(c, s);
      }
    }
    match c.loop.batch[0]
    case StartInLoop => StartKeeps(c', r);
    case StopInLoop => StopKeeps(c');
    case ResetChannel =>
      var d := c'.(channel := Null);
      forall s: Sock ensures OwnedOnce(d, s) {
        assert OwnedOnce(c', s);
      }
  }

  lemma StartStepKeeps(c: Conn, inLoop: bool, r: ConnectResult)
    requires Inv(c) && Enabled(c, Start(inLoop, r))
    ensures Inv(Apply(c, Start(inLoop, r)))
  {
    var c' := Wanted(c);
    SameSockets(c, c');
    if inLoop { StartKeeps(c', r); } else { SameSockets(c, Apply(c, Start(inLoop, r))); }
  }

  lemma StopStepKeeps(c: Conn, inLoop: bool)
    requires Inv(c)
    ensures Inv(Apply(c, Stop(inLoop)))
  {
    var c' := Unwanted(c);
    SameSockets(c, c');
    if inLoop { StopKeeps(c'); } else { SameSockets(c, Apply(c, Stop(inLoop))); }
  }

  lemma LoopStepKeeps(c: Conn, step: Step)
    requires Inv(c) && Enabled(c, step) && (step.Swap? || step.Poll?)
    ensures Inv(Apply(c, step))
  {
    SameSockets(c, Apply(c, step));
  }

  /** Exactly the reports with an error on an attempt that was given up are not harmless. */
  predicate StaleError(c: Conn, step: Step) { step.Dispatch? && step.err && c.state != Connecting }

  lemma DispatchKeeps(c: Conn, err: bool, out: bool, failed: bool)
    requires Inv(c) && c.loop.reported && (err ==> c.state == Connecting)
    ensures Inv(Apply(c, Dispatch(err, out, failed)))
  {
    var c' := Begun(c);
    SameSockets(c, c');
    if err {
      ErrorKeeps(c');
    } else if out && c.state == Connecting {
      WriteKeeps(c', failed);
    }
  }

  lemma StepKeeps(c: Conn, step: Step)
    requires Inv(c) && Enabled(c, step) && !StaleError(c, step)
    ensures Inv(Apply(c, step))
  {
    match step
    case Fire(r) => FireKeeps(c, r);
    case RunFunctor(r) => FunctorKeeps(c, r);
    case ConnectionCloses(restart, r) => if restart { RestartKeeps(c, r); } else { CloseKeeps(c, r); }
    case Dispatch(err, out, failed) => DispatchKeeps(c, err, out, failed);
    case Start(inLoop, r) => StartStepKeeps(c, inLoop, r);
    case Stop(inLoop) => StopStepKeeps(c, inLoop);
    case Swap => LoopStepKeeps(c, step);
    case Poll(_) => LoopStepKeeps(c, step);
  }

  lemma CloseKeeps(c: Conn, r: ConnectResult)
    requires Inv(c) && Enabled(c, ConnectionCloses(false, r))
    ensures Inv(Apply(c, ConnectionCloses(false, r)))
  {
    SameSockets(c, Parted(c));
  }

  lemma SameSockets(c: Conn, c': Conn)
    requires Owned(c) && c'.sockets == c.sockets
    requires c'.state == c.state && c'.channel == c.channel
    ensures Owned(c')
  {
    forall s: Sock ensures OwnedOnce(c', s) {
      assert OwnedOnce(c, s);
    }
  }

  // ---- stopping between the report and its dispatch ----

  /** The client was stopped on the loop thread since the last `poll`. */
  predicate StoppedSincePoll(steps: seq<Step>) {
    steps != [] && (Last(steps) == Stop(true) || (!Last(steps).Poll? && StoppedSincePoll(Init(steps))))
  }

  /** The last `poll` reported the channel, its events are being handled, and nothing has ended the
      attempt since. */
  predicate ReportPending(steps: seq<Step>) {
    steps != [] &&
    match Last(steps)
    case Poll(report) => report
    case Swap => false
    case Stop(inLoop) => !inLoop && ReportPending(Init(steps))
    case Dispatch(err, out, _) => !err && !out && ReportPending(Init(steps))
    case _ => ReportPending(Init(steps))
  }

  /** Some in-loop stop falls between the report of the channel and the end of its attempt. */
  predicate HastyStop(steps: seq<Step>) {
    steps != [] && (HastyStop(Init(steps)) || (Last(steps) == Stop(true) && ReportPending(Init(steps))))
  }

  /** Some report with an error is dispatched after an in-loop stop that followed the `poll`. */
  predicate ErrorAfterStop(steps: seq<Step>) {
    steps != [] &&
      (ErrorAfterStop(Init(steps)) ||
       (Last(steps).Dispatch? && Last(steps).err && StoppedSincePoll(Init(steps))))
  }

  /** What the calls so far say about the state. */
  ghost predicate Tells(steps: seq<Step>, c: Conn) {
    && (c.loop.reported ==> (c.state != Connecting <==> StoppedSincePoll(steps)))
    && (ReportPending(steps) <==> c.loop.listed && c.state == Connecting)
    && (c.loop.reported && StoppedSincePoll(steps) ==> HastyStop(steps))
  }

  /** Steps other than these leave a listed channel, and its attempt, alone. */
  predicate Decisive(step: Step) { step.Poll? || step.Swap? || step.Dispatch? || step == Stop(true) }

  lemma StartInFlags(c: Conn, r: ConnectResult)
    ensures StartIn(c, r).loop.listed == c.loop.listed && StartIn(c, r).loop.reported == c.loop.reported
  {
  }

  lemma FunctorFlags(c: Conn, r: ConnectResult)
    requires Inv(c) && Enabled(c, RunFunctor(r))
    ensures !c.loop.listed && !c.loop.reported
    ensures !Apply(c, RunFunctor(r)).loop.listed && !Apply(c, RunFunctor(r)).loop.reported
  {
    StartInFlags(Popped(c), r);
  }

  lemma OtherStep(c: Conn, step: Step)
    requires Inv(c) && Enabled(c, step) && !Decisive(step)
    ensures var c' := Apply(c, step);
            && c'.loop.listed == c.loop.listed && c'.loop.reported == c.loop.reported
            && (c.loop.listed ==> c'.state == c.state)
  {
    match step
    case RunFunctor(r) => FunctorFlags(c, r);
    case Start(_, r) => StartInFlags(Wanted(c), r);
    case Fire(r) => StartInFlags(Fired(c), r);
    case ConnectionCloses(_, r) =>
      StartInFlags(Parted(c).(state := Disconnected, delay := INIT_RETRY_DELAY_MS, delays := [], connect := true), r);
    case _ =>
  }

  lemma DecisiveStep(c: Conn, step: Step)
    requires Inv(c) && Enabled(c, step) && Decisive(step) && !StaleError(c, step)
    ensures var c' := Apply(c, step);
            match step
            case Poll(report) => c'.loop.listed == c'.loop.reported == report && (report ==> c'.state == Connecting)
            case Swap => !c'.loop.listed && !c'.loop.reported
            case Dispatch(err, out, _) =>
              && c'.loop.listed && !c'.loop.reported
              && (err ==> c'.state == Disconnected) && (!err && !out ==> c'.state == c.state)
            case _ => c'.loop.listed == c.loop.listed && c'.loop.reported == c.loop.reported && c'.state != Connecting
  {
  }

  lemma WriteEnds(c: Conn, failed: bool)
    requires ChannelOk(c)
    ensures AfterWrite(c, failed).state != Connecting
  {
  }

  lemma TellsStep(steps: seq<Step>, c: Conn)
    requires steps != [] && Inv(c) && Enabled(c, Last(steps)) && !StaleError(c, Last(steps)) && Tells(Init(steps), c)
    ensures Tells(steps, Apply(c, Last(steps)))
  {
    if Decisive(Last(steps)) { DecisiveStep(c, Last(steps)); } else { OtherStep(c, Last(steps)); }
    if Last(steps).Dispatch? && Last(steps).out {
      var d := Begun(c);
      WriteEnds(if Last(steps).err then AfterError(d) else d, Last(steps).failed);
    }
  }

  lemma {:induction false} CleanRun(steps: seq<Step>)
    requires Runs(steps) && !ErrorAfterStop(steps)
    ensures Inv(Final(steps)) && Tells(steps, Final(steps))
    decreases |steps|
  {
    if steps == [] {
      assert Pow2(0) == 1;
    } else {
      CleanRun(Init(steps));
      StepKeeps(Final(Init(steps)), Last(steps));
      TellsStep(steps, Final(Init(steps)));
    }
  }

  /** A socket was closed twice; the client is stopped and stays so. */
  ghost predicate Broken(c: Conn) {
    && c.owner.stopped && !c.connect && c.state == Disconnected && !c.owner.live && c.loop.timers <= 1 && DelaysOk(c)
    && exists s: Sock :: c.sockets.closed[s] >= 2
  }

  lemma StaleErrorBreaks(c: Conn, step: Step)
    requires Inv(c) && Enabled(c, step) && StaleError(c, step)
    ensures Broken(Apply(c, step))
  {
    assert Apply(c, step).sockets.closed[c.channel.sock] >= 2;
  }

  lemma BrokenExecutes(c: Conn, f: Functor, r: ConnectResult)
    requires Broken(c)
    ensures Broken(Execute(c, f, r))
  {
    var s: Sock :| c.sockets.closed[s] >= 2;
    assert Execute(c, f, r).sockets.closed[s] >= 2;
  }

  lemma BrokenDispatches(c: Conn, err: bool, out: bool, failed: bool)
    requires Broken(c)
    ensures Broken(Dispatched(c, err, out, failed))
  {
    var s: Sock :| c.sockets.closed[s] >= 2;
    assert Dispatched(c, err, out, failed).sockets.closed[s] >= 2;
  }

  lemma BrokenStays(c: Conn, step: Step)
    requires Broken(c) && Enabled(c, step)
    ensures Broken(Apply(c, step))
  {
    var s: Sock :| c.sockets.closed[s] >= 2;
    match step
    case RunFunctor(r) =>
      assert Popped(c).sockets.closed[s] >= 2;
      BrokenExecutes(Popped(c), c.loop.batch[0], r);
    case Dispatch(err, out, failed) =>
      assert Begun(c).sockets.closed[s] >= 2;
      BrokenDispatches(Begun(c), err, out, failed);
    case Stop(_) => assert Apply(c, step).sockets.closed[s] >= 2;
    case Fire(_) => assert Apply(c, step).sockets.closed[s] >= 2;
    case Swap => assert Apply(c, step).sockets.closed[s] >= 2;
    case Poll(_) => assert Apply(c, step).sockets.closed[s] >= 2;
    case _ =>
  }

  lemma {:induction false} BrokenRun(steps: seq<Step>)
    requires Runs(steps) && ErrorAfterStop(steps)
    ensures Broken(Final(steps))
    decreases |steps|
  {
    if ErrorAfterStop(Init(steps)) {
      BrokenRun(Init(steps));
      BrokenStays(Final(Init(steps)), Last(steps));
    } else {
      CleanRun(Init(steps));
      StaleErrorBreaks(Final(Init(steps)), Last(steps));
    }
  }

  /** Over every run: at most one retry is scheduled, and none while connecting or connected; delays
      double up to the maximum; and each socket is in flight, closed once or handed over once, exactly
      if no report with an error is dispatched after an in-loop stop of the same iteration. */
  lemma SocketsAndRetries(steps: seq<Step>)
    requires Runs(steps)
    ensures var c := Final(steps);
            && (forall k | 0 <= k < |c.delays| :: c.delays[k] == Min(500 * Pow2(k), 30000))
            && c.loop.timers <= 1 && (c.loop.timers == 1 ==> c.state == Disconnected)
            && (Owned(c) <==> !ErrorAfterStop(steps))
  {
    if ErrorAfterStop(steps) {
      BrokenRun(steps);
      var c := Final(steps);
      var s: Sock :| c.sockets.closed[s] >= 2;
      assert !OwnedOnce(c, s);
    } else {
      CleanRun(steps);
    }
  }

  // ---- the asserts ----

  /** The asserts of `startInLoop`, `connecting`, `handleError` and `handleWrite`, and the one of
      `EventLoop::removeChannel`: while events are handled, a channel other than the current one is
      removed only if it is not listed. */
  predicate Asserts(c: Conn, step: Step)
    requires Enabled(c, step)
  {
    match step
    case Start(inLoop, _) => inLoop ==> c.state == Disconnected && c.channel == Null
    case Stop(inLoop) =>
      inLoop && c.state == Connecting ==> c.channel.Holds? && !(c.loop.phase == Events && c.loop.listed)
    case Fire(_) => StartAsserts(c)
    case Dispatch(err, out, _) =>
      && (err ==> c.state == Connecting && c.channel.Holds?)
      && (!err && out ==> c.state == Disconnected || (c.state == Connecting && c.channel.Holds?))
    case ConnectionCloses(restart, _) => restart ==> c.channel == Null
    case RunFunctor(_) =>
      && (c.loop.batch[0] == StartInLoop ==> StartAsserts(c))
      && (c.loop.batch[0] == StopInLoop && c.state == Connecting ==> c.channel.Holds?)
    case _ => true
  }

  ghost predicate AllAsserts(steps: seq<Step>)
    requires Runs(steps)
    decreases |steps|
  {
    steps == [] || (AllAsserts(Init(steps)) && Asserts(Final(Init(steps)), Last(steps)))
  }

  lemma AssertsStep(c: Conn, step: Step)
    requires Inv(c) && Enabled(c, step)
    ensures Asserts(c, step) <==>
              !StaleError(c, step) && !(step == Stop(true) && c.loop.listed && c.state == Connecting)
  {
    match step
    case Fire(r) => FireKeeps(c, r);
    case RunFunctor(r) => FunctorKeeps(c, r);
    case ConnectionCloses(restart, r) => if restart { RestartKeeps(c, r); }
    case _ =>
  }

  lemma {:induction false} ErrorNeedsHastyStop(steps: seq<Step>)
    requires Runs(steps) && ErrorAfterStop(steps)
    ensures HastyStop(steps)
    decreases |steps|
  {
    if ErrorAfterStop(Init(steps)) { ErrorNeedsHastyStop(Init(steps)); } else { CleanRun(Init(steps)); }
  }

  /** Over every run: all asserts hold exactly if no in-loop stop falls between the report of the
      channel and the end of its attempt. In particular `startInLoop`, by whatever way it is
      reached, finds the connector disconnected and `connecting` finds no old channel. */
  lemma {:induction false} AssertsHoldIff(steps: seq<Step>)
    requires Runs(steps)
    ensures AllAsserts(steps) <==> !HastyStop(steps)
    decreases |steps|
  {
    if steps != [] {
      AssertsHoldIff(Init(steps));
      if !HastyStop(Init(steps)) {
        if ErrorAfterStop(Init(steps)) { ErrorNeedsHastyStop(Init(steps)); }
        CleanRun(Init(steps));
        AssertsStep(Final(Init(steps)), Last(steps));
      }
    }
  }

  /** Over every run, hasty stops or not: whenever `startInLoop` is about to run, by a timer, a functor
      or a restart, its assert on the state holds and `connecting` would find no old channel. */
  lemma NoOldChannel(steps: seq<Step>, r: ConnectResult)
    requires Runs(steps)
    ensures var c := Final(steps);
            && (Enabled(c, Fire(r)) ==> StartAsserts(c))
            && (Enabled(c, RunFunctor(r)) && c.loop.batch[0] == StartInLoop ==> StartAsserts(c))
            && (Enabled(c, ConnectionCloses(true, r)) ==> c.channel == Null)
            && (Enabled(c, Start(true, r)) ==> c.state == Disconnected && c.channel == Null)
  {
    var c := Final(steps);
    if ErrorAfterStop(steps) {
      BrokenRun(steps);
    } else {
      CleanRun(steps);
      if Enabled(c, Fire(r)) { FireKeeps(c, r); }
      if Enabled(c, RunFunctor(r)) { FunctorKeeps(c, r); }
      if Enabled(c, ConnectionCloses(true, r)) { RestartKeeps(c, r); }
    }
  }

  lemma RunSnoc(steps: seq<Step>, step: Step)
    requires Runs(steps) && Enabled(Final(steps), step)
    ensures Runs(steps + [step]) && Final(steps + [step]) == Apply(Final(steps), step)
  {
    assert Init(steps + [step]) == steps && Last(steps + [step]) == step;
  }

  /** A stop between report and dispatch: the assert of `removeChannel` fails, and where asserts are
      compiled out the error removes the channel a second time, under an index that is no longer its
      own (`PollPollers.RemovedIndexIsStale`), and then closes the socket a second time. */
  lemma StopBeforeDispatch()
    ensures exists steps ::
              Runs(steps) && HastyStop(steps) && ErrorAfterStop(steps) && Final(steps).sockets.closed[0] == 2
  {
    var s1, s2, s3, s4 := Start(true, InProgress), Poll(true), Stop(true), Dispatch(true, false, true);
    var r1 := [s1];
    var r2, r3, r4 := r1 + [s2], r1 + [s2] + [s3], r1 + [s2] + [s3] + [s4];
    assert [] + [s1] == r1;
    RunSnoc([], s1);
    RunSnoc(r1, s2);
    RunSnoc(r2, s3);
    RunSnoc(r3, s4);
    assert Init(r2) == r1 && Init(r3) == r2 && Init(r4) == r3;
    assert ReportPending(r2) && HastyStop(r3) && StoppedSincePoll(r3);
    assert Runs(r4) && HastyStop(r4) && ErrorAfterStop(r4);
  }

  /** The assumption on timers is needed: a retry that fires in the iteration that asked for it, while
      its client wants to connect, finds the old channel; and it is the only such case. */
  lemma EarlyTimerIff(c: Conn)
    requires Inv(c) && c.loop.phase == Events && c.loop.timers > 0 && c.connect && Pending(c, StartInLoop) == 0
    ensures StartAsserts(Fired(c)) <==> Pending(c, ResetChannel) == 0
    ensures !c.loop.timerFresh ==> StartAsserts(Fired(c))
  {
  }

  lemma EarlyTimerFindsOldChannel()
    ensures exists steps :: Runs(steps) && Final(steps).loop.timers == 1 && Final(steps).loop.timerFresh
                            && !StartAsserts(Fired(Final(steps)))
  {
    var s1, s2, s3 := Start(true, InProgress), Poll(true), Dispatch(true, false, true);
    var r1, r2 := [s1], [s1] + [s2];
    assert [] + [s1] == r1;
    RunSnoc([], s1);
    RunSnoc(r1, s2);
    RunSnoc(r2, s3);
    assert Runs(r2 + [s3]) && !StartAsserts(Fired(Final(r2 + [s3])));
  }

  // ---- what each event does ----

  /** The socket is closed and, if the client wants to connect, one retry is scheduled after the next
      delay in the series. */
  ghost predicate Retries(c: Conn, c': Conn, s: Sock) {
    && c'.sockets.closed == c.sockets.closed + multiset{s} && c'.sockets.handed == c.sockets.handed
    && c'.state == Disconnected
    && c'.loop.timers == c.loop.timers + (if c.connect then 1 else 0)
    && c'.delays == c.delays + (if c.connect then [DelayAt(|c.delays|)] else [])
  }

  /** The three ends of `connect(2)`: only the retryable one schedules a retry. */
  lemma AttemptOutcome(c: Conn, r: ConnectResult)
    requires Inv(c) && c.connect
    ensures var s, c' := c.sockets.created, StartIn(c, r);
            && c'.sockets.created == s + 1
            && match r
               case InProgress => InFlight(c', s) == 1 && c'.sockets.closed == c.sockets.closed && c'.loop == c.loop
               case Retryable => Retries(c, c', s)
               case Fatal =>
                 c'.sockets.closed == c.sockets.closed + multiset{s} && c'.loop == c.loop && c'.state == c.state
  {
  }

  /** A writable report while connecting hands the socket to a client that wants it, closes it for one
      that was stopped, and retries if the connect had failed after all. */
  lemma WriteOutcome(c: Conn, failed: bool)
    requires Inv(c) && c.state == Connecting
    ensures var s, c' := c.channel.sock, AfterWrite(c, failed);
            if failed then Retries(c, c', s)
            else
              && c'.state == Connected && c'.loop.timers == c.loop.timers && c'.delays == c.delays
              && c'.sockets.handed == c.sockets.handed + (if c.connect then multiset{s} else multiset{})
              && c'.sockets.closed == c.sockets.closed + (if c.connect then multiset{} else multiset{s})
              && c'.owner.live == (c.connect || c.owner.live)
  {
    assert c.delays + [] == c.delays;
  }

  lemma ErrorOutcome(c: Conn)
    requires Inv(c) && c.state == Connecting
    ensures Retries(c, AfterError(c), c.channel.sock)
  {
    assert c.delays + [] == c.delays;
  }

  /** A restart begins the series of delays anew. */
  lemma RestartOutcome(c: Conn, r: ConnectResult)
    requires Inv(c) && Enabled(c, ConnectionCloses(true, r))
    ensures var c' := Apply(c, ConnectionCloses(true, r));
            && c'.sockets.created == c.sockets.created + 1 && !c'.owner.live
            && c'.delays == if r == Retryable then [500] else []
  {
  }

  // ---- nothing is lost ----

  /** A start, and a stop of a pending attempt, wait in the loop until they are carried out. */
  predicate NothingLost(c: Conn) {
    && (c.owner.started && !c.owner.stopped && c.sockets.created == 0 ==> Pending(c, StartInLoop) == 1)
    && (c.owner.stopped && c.state == Connecting ==> Pending(c, StopInLoop) > 0)
    && (c.connect <==> c.owner.started && !c.owner.stopped)
  }

  /** A client that wants to connect is about to start, connecting, waiting for a retry or connected. */
  predicate Busy(c: Conn) {
    c.connect ==> Pending(c, StartInLoop) == 1 || c.state != Disconnected || c.loop.timers == 1
  }

  predicate FatalIn(step: Step) {
    match step
    case Start(_, r) => r == Fatal
    case Fire(r) => r == Fatal
    case ConnectionCloses(_, r) => r == Fatal
    case RunFunctor(r) => r == Fatal
    case _ => false
  }

  lemma FunctorLosesNothing(c: Conn, r: ConnectResult)
    requires Inv(c) && NothingLost(c) && Enabled(c, RunFunctor(r))
    ensures NothingLost(Apply(c, RunFunctor(r)))
    ensures Busy(c) && r != Fatal ==> Busy(Apply(c, RunFunctor(r)))
  {
    PopCounts(c.loop.batch);
    FunctorKeeps(c, r);
  }

  lemma DispatchLosesNothing(c: Conn, step: Step)
    requires Inv(c) && NothingLost(c) && Enabled(c, step) && !StaleError(c, step) && step.Dispatch?
    ensures NothingLost(Apply(c, step))
    ensures Busy(c) ==> Busy(Apply(c, step))
  {
  }

  lemma StartLosesNothing(c: Conn, step: Step)
    requires Inv(c) && NothingLost(c) && Enabled(c, step) && step.Start?
    ensures NothingLost(Apply(c, step))
    ensures !FatalIn(step) ==> Busy(Apply(c, step))
  {
  }

  lemma StopLosesNothing(c: Conn, step: Step)
    requires Inv(c) && NothingLost(c) && step.Stop?
    ensures NothingLost(Apply(c, step)) && Busy(Apply(c, step))
  {
  }

  lemma StepLosesNothing(c: Conn, step: Step)
    requires Inv(c) && NothingLost(c) && Enabled(c, step) && !StaleError(c, step)
    ensures NothingLost(Apply(c, step))
    ensures Busy(c) && !FatalIn(step) ==> Busy(Apply(c, step))
  {
    match step
    case RunFunctor(r) => FunctorLosesNothing(c, r);
    case Dispatch(_, _, _) => DispatchLosesNothing(c, step);
    case Start(_, _) => StartLosesNothing(c, step);
    case Stop(_) => StopLosesNothing(c, step);
    case _ =>
  }

  predicate AnyStart(steps: seq<Step>) { steps != [] && (AnyStart(Init(steps)) || Last(steps).Start?) }

  predicate AnyStop(steps: seq<Step>) { steps != [] && (AnyStop(Init(steps)) || Last(steps).Stop?) }

  predicate AnyFatal(steps: seq<Step>) { steps != [] && (AnyFatal(Init(steps)) || FatalIn(Last(steps))) }

  /** The clean writable reports of an attempt that nothing has ended, dispatched before any stop. */
  function CleanReports(steps: seq<Step>): nat {
    if steps == [] then 0
    else
      var clean := Last(steps) == Dispatch(false, true, false) && ReportPending(Init(steps)) && !AnyStop(Init(steps));
      CleanReports(Init(steps)) + if clean then 1 else 0
  }

  function Closes(steps: seq<Step>): nat {
    if steps == [] then 0 else Closes(Init(steps)) + if Last(steps).ConnectionCloses? then 1 else 0
  }

  predicate HandsOver(c: Conn, step: Step) {
    step == Dispatch(false, true, false) && c.state == Connecting && c.channel.Holds? && c.connect
  }

  lemma StartInOwner(c: Conn, r: ConnectResult)
    ensures StartIn(c, r).owner == c.owner && StartIn(c, r).sockets.handed == c.sockets.handed
  {
  }

  lemma DispatchedOwner(c: Conn, step: Step)
    requires step.Dispatch?
    ensures var c' := Dispatched(c, step.err, step.out, step.failed);
            && c'.owner.started == c.owner.started && c'.owner.stopped == c.owner.stopped
            && c'.owner.live == (c.owner.live || HandsOver(c, step))
            && |c'.sockets.handed| == |c.sockets.handed| + if HandsOver(c, step) then 1 else 0
  {
  }

  /** How a step changes the owner and the sockets handed over to it. */
  lemma OwnerStep(c: Conn, step: Step)
    requires Enabled(c, step)
    ensures var c' := Apply(c, step);
            && c'.owner.started == (c.owner.started || step.Start?)
            && c'.owner.stopped == (c.owner.stopped || step.Stop?)
            && c'.owner.live == ((c.owner.live && !step.ConnectionCloses?) || HandsOver(c, step))
            && |c'.sockets.handed| == |c.sockets.handed| + if HandsOver(c, step) then 1 else 0
  {
    match step
    case Start(_, r) => StartInOwner(Wanted(c), r);
    case Fire(r) => StartInOwner(Fired(c), r);
    case RunFunctor(r) => StartInOwner(Popped(c), r);
    case ConnectionCloses(_, r) =>
      StartInOwner(Parted(c).(state := Disconnected, delay := INIT_RETRY_DELAY_MS, delays := [], connect := true), r);
    case Dispatch(_, _, _) => DispatchedOwner(Begun(c), step);
    case _ =>
  }

  /** What the calls say about the books. */
  ghost predicate Booked(steps: seq<Step>, c: Conn) {
    && (c.owner.started <==> AnyStart(steps)) && (c.owner.stopped <==> AnyStop(steps))
    && |c.sockets.handed| == CleanReports(steps)
    && |c.sockets.handed| == Closes(steps) + if c.owner.live then 1 else 0
  }

  lemma BookedStep(steps: seq<Step>, c: Conn)
    requires steps != [] && Enabled(c, Last(steps)) && Booked(Init(steps), c)
    requires HandsOver(c, Last(steps)) ==> !c.owner.live
    requires Last(steps) == Dispatch(false, true, false) ==>
               (HandsOver(c, Last(steps)) <==> ReportPending(Init(steps)) && !AnyStop(Init(steps)))
    ensures Booked(steps, Apply(c, Last(steps)))
  {
    OwnerStep(c, Last(steps));
  }

  lemma HandsOverIff(steps: seq<Step>)
    requires Runs(steps) && Booked(steps, Final(steps)) && NothingLost(Final(steps))
    requires Enabled(Final(steps), Dispatch(false, true, false))
    ensures HandsOver(Final(steps), Dispatch(false, true, false)) <==> ReportPending(steps) && !AnyStop(steps)
  {
    if ErrorAfterStop(steps) { BrokenRun(steps); } else { CleanRun(steps); }
  }

  lemma HandsOverOnce(steps: seq<Step>, step: Step)
    requires Runs(steps) && HandsOver(Final(steps), step)
    ensures !Final(steps).owner.live
  {
    if ErrorAfterStop(steps) { BrokenRun(steps); } else { CleanRun(steps); }
  }

  /** Over every run: the client is wanted exactly between `start` and the first `stop`; a start or a stop
      made from another thread is carried out, not lost; the sockets handed over are as many as the
      clean reports dispatched while connecting and wanted, and as many as the connections that were
      closed and the one that lives; and without a fatal error a wanted client never falls idle. */
  lemma {:induction false} NothingIsLost(steps: seq<Step>)
    requires Runs(steps)
    ensures NothingLost(Final(steps)) && Booked(steps, Final(steps))
    ensures !AnyFatal(steps) ==> Busy(Final(steps))
    decreases |steps|
  {
    if steps != [] {
      var c, step := Final(Init(steps)), Last(steps);
      NothingIsLost(Init(steps));
      if HandsOver(c, step) { HandsOverOnce(Init(steps), step); }
      if step == Dispatch(false, true, false) { HandsOverIff(Init(steps)); }
      BookedStep(steps, c);
      if ErrorAfterStop(steps) {
        BrokenRun(steps);
      } else {
        CleanRun(steps);
        CleanRun(Init(steps));
        StepLosesNothing(c, step);
      }
    }
  }

  /** And a fatal error does leave it idle: nothing is scheduled that would try again. */
  lemma FatalGivesUp(c: Conn, r: ConnectResult)
    requires Inv(c) && StartAsserts(c) && c.loop.timers == 0 && c.connect && Pending(c, StartInLoop) == 0
    ensures Busy(StartIn(c, r)) <==> r != Fatal
  {
  }

  // ---- the code ----

  /** `Connector`, with the parts of the loop, the kernel and the client that it works on. */
  class Connector {
    var connect: bool
    var state: State
    var channel: Slot
    var retryDelayMs: int
    var loop: Loop
    var sockets: Sockets
    ghost var delays: seq<int>
    ghost var owner: Owner

    ghost function View(): Conn
      reads this
    {
      Conn(connect, state, channel, retryDelayMs, delays, loop, sockets, owner)
    }

    constructor ()
      ensures View() == NEW
    {
      connect, state, channel, retryDelayMs := false, Disconnected, Null, INIT_RETRY_DELAY_MS;
      loop, sockets := NEW.loop, NEW.sockets;
      delays, owner := NEW.delays, NEW.owner;
    }

    /** `runAfter` with `startInLoop`. */
    method RunAfter(delayMs: int)
      requires delayMs == retryDelayMs
      modifies this`loop, this`delays
      ensures View() == Scheduled(old(View()))
    {
      loop := loop.(timers := loop.timers + 1, timerFresh := true);
      delays := delays + [delayMs];
    }

    method Close(sockfd: Sock)
      modifies this`sockets
      ensures View() == Closed(old(View()), sockfd)
    {
      sockets := sockets.(closed := sockets.closed + multiset{sockfd});
    }

    method Retry(sockfd: Sock)
      modifies this`sockets, this`state, this`loop, this`delays, this`retryDelayMs
      ensures View() == AfterRetry(old(View()), sockfd)
    {
      Close(sockfd);
      state := Disconnected;
      if connect {
        RunAfter(retryDelayMs);
        retryDelayMs := Min(retryDelayMs * 2, MAX_RETRY_DELAY_MS);
      }
    }

    method CreateNonblocking() returns (sockfd: Sock)
      modifies this`sockets
      ensures View() == NewSocket(old(View())) && sockfd == old(sockets.created)
    {
      sockfd := sockets.created;
      sockets := sockets.(created := sockets.created + 1);
    }

    method Connect(r: ConnectResult)
      modifies this
      ensures View() == AfterConnect(old(View()), r)
    {
      var sockfd := CreateNonblocking();
      match r
      case InProgress => ConnectingOn(sockfd);
      case Retryable => Retry(sockfd);
      case Fatal => Close(sockfd);
    }

    /** `connecting`. */
    method ConnectingOn(sockfd: Sock)
      modifies this`state, this`channel
      ensures View() == old(View()).(state := Connecting, channel := Holds(sockfd))
    {
      state := Connecting;
      channel := Holds(sockfd);
    }

    method StartInLoop(r: ConnectResult)
      requires StartAsserts(View())
      modifies this
      ensures View() == StartIn(old(View()), r)
    {
      if connect {
        Connect(r);
      }
    }

    method RemoveAndResetChannel() returns (sockfd: Sock)
      requires channel.Holds?
      modifies this`loop
      ensures View() == RemoveAndReset(old(View())) && channel == Holds(sockfd)
    {
      sockfd := channel.sock;
      loop := loop.(queue := loop.queue + [ResetChannel]);
    }

    method StopInLoop()
      requires ChannelOk(View())
      modifies this
      ensures View() == StopIn(old(View()))
    {
      if state == Connecting {
        state := Disconnected;
        var sockfd := RemoveAndResetChannel();
        Retry(sockfd);
      }
    }

    /** `newConnectionCallback_`. */
    method HandOver(sockfd: Sock)
      modifies this`sockets, this`owner
      ensures View() == HandedOver(old(View()), sockfd)
    {
      sockets := sockets.(handed := sockets.handed + multiset{sockfd});
      owner := owner.(live := true, liveFresh := true);
    }

    method HandleWrite(failed: bool)
      requires ChannelOk(View()) && (state == Connecting || state == Disconnected)
      modifies this
      ensures View() == AfterWrite(old(View()), failed)
    {
      if state == Connecting {
        var sockfd := RemoveAndResetChannel();
        if failed {
          Retry(sockfd);
        } else {
          state := Connected;
          if connect {
            HandOver(sockfd);
          } else {
            Close(sockfd);
          }
        }
      }
    }

    method HandleError()
      requires ChannelOk(View()) && state == Connecting
      modifies this
      ensures View() == AfterError(old(View()))
    {
      var sockfd := RemoveAndResetChannel();
      Retry(sockfd);
    }

    method Restart(r: ConnectResult)
      requires channel == Null
      modifies this
      ensures View() == AfterRestart(old(View()), r)
    {
      state := Disconnected;
      retryDelayMs := INIT_RETRY_DELAY_MS;
      delays := [];
      connect := true;
      StartInLoop(r);
    }
  }
}
